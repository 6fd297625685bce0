/** The `k8s_api` stanza: where to find the cluster and how to authenticate. */
module KubeApiSetup {
  import opened Wrappers
  import opened Config

  datatype ClientConfig = KubeConfig(path: string, context: string)

  /** The configured plugin. `namespaces` is a Go map; None is a nil map. */
  datatype KubeAPI = KubeAPI(
    apiServer: string,
    apiCertAuth: string,
    apiClientCert: string,
    apiClientKey: string,
    clientConfig: Option<ClientConfig>,
    namespaces: Option<set<string>>)

  /** `New` allocates the plugin and initialises nothing: the namespaces map is nil. */
  const New := KubeAPI("", "", "", "", None, None)

  /** The `namespaces` loop stores each argument in the map; the first store
      into a nil map panics. */
  function AddNamespaces(ns: Option<set<string>>, args: seq<string>): (r: Run<Option<set<string>>>)
    ensures ns.None? && |args| > 0 ==> r.Panics?
    ensures ns.Some? ==> r == Returns(Some(ns.value + set a | a in args))
  {
    if ns.None? then
      if |args| > 0 then Panics("assignment to entry in nil map") else Returns(ns)
    else Returns(Some(ns.value + set a | a in args))
  }

  /** A directive the stanza accepts when the namespaces map is nil. */
  predicate WellFormed(d: Directive)
  {
    || (d.name == "endpoint" && |d.args| == 1)
    || (d.name == "tls" && |d.args| == 3)
    || (d.name == "kubeconfig" && |d.args| == 2)
  }

  /** One pass of the `NextBlock` loop. */
  function ApplyDirective(k: KubeAPI, d: Directive): (r: Run<Result<KubeAPI, ParseError>>)
    ensures d.name == "endpoint" ==>
      r == Returns(if |d.args| == 1 then Ok(k.(apiServer := d.args[0])) else Err(ArgErr(d.name)))
    ensures d.name == "tls" ==>
      r == Returns(if |d.args| == 3 then Ok(k.(apiClientCert := d.args[0], apiClientKey := d.args[1], apiCertAuth := d.args[2]))
                   else Err(ArgErr(d.name)))
    ensures d.name == "kubeconfig" ==>
      r == Returns(if |d.args| == 2 then Ok(k.(clientConfig := Some(KubeConfig(d.args[0], d.args[1])))) else Err(ArgErr(d.name)))
    ensures d.name == "namespaces" && |d.args| == 0 ==> r == Returns(Err(ArgErr(d.name)))
    ensures d.name == "namespaces" && |d.args| > 0 && k.namespaces.None? ==> r.Panics?
    ensures d.name !in {"endpoint", "tls", "kubeconfig", "namespaces"} ==> r == Returns(Err(UnknownProperty(d.name)))
  {
    if d.name == "endpoint" then
      if |d.args| == 1 then Returns(Ok(k.(apiServer := d.args[0]))) else Returns(Err(ArgErr(d.name)))
    else if d.name == "tls" then
      if |d.args| == 3 then
        Returns(Ok(k.(apiClientCert := d.args[0], apiClientKey := d.args[1], apiCertAuth := d.args[2])))
      else Returns(Err(ArgErr(d.name)))
    else if d.name == "kubeconfig" then
      if |d.args| == 2 then Returns(Ok(k.(clientConfig := Some(KubeConfig(d.args[0], d.args[1])))))
      else Returns(Err(ArgErr(d.name)))
    else if d.name == "namespaces" then
      if |d.args| > 0 then
        match AddNamespaces(k.namespaces, d.args)
        case Panics(why) => Panics(why)
        case Returns(ns) => Returns(Ok(k.(namespaces := ns)))
      else Returns(Err(ArgErr(d.name)))
    else Returns(Err(UnknownProperty(d.name)))
  }

  /** The block loop: directives in order, stopping at the first error. */
  function ApplyBlock(k: KubeAPI, block: seq<Directive>): Run<Result<KubeAPI, ParseError>>
    decreases |block|
  {
    if block == [] then Returns(Ok(k))
    else
      match ApplyDirective(k, block[0])
      case Panics(why) => Panics(why)
      case Returns(Err(e)) => Returns(Err(e))
      case Returns(Ok(k')) => ApplyBlock(k', block[1..])
  }

  function ParseStanza(block: seq<Directive>): Run<Result<KubeAPI, ParseError>>
  {
    ApplyBlock(New, block)
  }

  /** The value a field ends with: argument `k` of the last directive
      called `name`, or `default` when there is no such directive. */
  function Last(block: seq<Directive>, name: string, k: int, default: string): string
  {
    match LastArgs(block, name)
    case Some(a) => if 0 <= k < |a| then a[k] else ""
    case None => default
  }

  /** With a nil namespaces map, a single directive succeeds exactly when it
      is well formed, and the map stays nil. */
  lemma ApplyDirectiveSucceeds(k: KubeAPI, d: Directive)
    requires k.namespaces.None?
    ensures (ApplyDirective(k, d).Returns? && ApplyDirective(k, d).value.Ok?) <==> WellFormed(d)
    ensures ApplyDirective(k, d).Returns? && ApplyDirective(k, d).value.Ok? ==>
              ApplyDirective(k, d).value.value.namespaces.None?
  {
  }

  /** A stanza succeeds exactly when every directive is well formed, so a
      `namespaces` line never succeeds. */
  lemma {:induction false} ApplyBlockSucceeds(k: KubeAPI, block: seq<Directive>)
    requires k.namespaces.None?
    ensures (ApplyBlock(k, block).Returns? && ApplyBlock(k, block).value.Ok?) <==>
            forall i :: 0 <= i < |block| ==> WellFormed(block[i])
    decreases |block|
  {
    if block != [] {
      ApplyDirectiveSucceeds(k, block[0]);
      match ApplyDirective(k, block[0])
      case Panics(_) =>
      case Returns(Err(_)) =>
      case Returns(Ok(k')) =>
        ApplyBlockSucceeds(k', block[1..]);
        assert forall i :: 0 <= i < |block[1..]| ==> block[1..][i] == block[i + 1];
    }
  }

  /** What one successful directive does to each field. */
  lemma ApplyDirectiveFields(k: KubeAPI, d: Directive)
    requires ApplyDirective(k, d).Returns? && ApplyDirective(k, d).value.Ok?
    ensures var r := ApplyDirective(k, d).value.value;
      && r.apiServer == (if d.name == "endpoint" then d.args[0] else k.apiServer)
      && (d.name == "tls" ==> |d.args| == 3)
      && r.apiClientCert == (if d.name == "tls" then d.args[0] else k.apiClientCert)
      && r.apiClientKey == (if d.name == "tls" then d.args[1] else k.apiClientKey)
      && r.apiCertAuth == (if d.name == "tls" then d.args[2] else k.apiCertAuth)
      && r.clientConfig == (if d.name == "kubeconfig" then Some(KubeConfig(d.args[0], d.args[1])) else k.clientConfig)
  {
  }

  /** A successful block is a successful first directive followed by a
      successful rest. */
  lemma StepOk(k: KubeAPI, block: seq<Directive>)
    requires block != []
    requires ApplyBlock(k, block).Returns? && ApplyBlock(k, block).value.Ok?
    ensures ApplyDirective(k, block[0]).Returns? && ApplyDirective(k, block[0]).value.Ok?
    ensures ApplyBlock(k, block) == ApplyBlock(ApplyDirective(k, block[0]).value.value, block[1..])
  {
  }

  /** After a successful stanza the API server is the argument of the last
      `endpoint` line, or unchanged when there is none. */
  lemma {:induction false} LastEndpointWins(k: KubeAPI, block: seq<Directive>)
    requires ApplyBlock(k, block).Returns? && ApplyBlock(k, block).value.Ok?
    ensures ApplyBlock(k, block).value.value.apiServer == Last(block, "endpoint", 0, k.apiServer)
    decreases |block|
  {
    if block != [] {
      var d, rest := block[0], block[1..];
      StepOk(k, block);
      var k' := ApplyDirective(k, d).value.value;
      ApplyDirectiveFields(k, d);
      LastEndpointWins(k', rest);
      assert [d] + rest == block;
      LastArgsCons(d, rest, "endpoint");
    }
  }

  /** After a successful stanza the certificate, key and CA file are the
      three arguments, in that order, of the last `tls` line. */
  lemma {:induction false} LastTlsWins(k: KubeAPI, block: seq<Directive>)
    requires ApplyBlock(k, block).Returns? && ApplyBlock(k, block).value.Ok?
    ensures var r := ApplyBlock(k, block).value.value;
      && r.apiClientCert == Last(block, "tls", 0, k.apiClientCert)
      && r.apiClientKey == Last(block, "tls", 1, k.apiClientKey)
      && r.apiCertAuth == Last(block, "tls", 2, k.apiCertAuth)
    decreases |block|
  {
    if block != [] {
      var d, rest := block[0], block[1..];
      StepOk(k, block);
      var k' := ApplyDirective(k, d).value.value;
      ApplyDirectiveFields(k, d);
      LastTlsWins(k', rest);
      assert [d] + rest == block;
      LastArgsCons(d, rest, "tls");
    }
  }

  /** After a successful stanza the client config comes from the last
      `kubeconfig` line (path, then context). */
  lemma {:induction false} LastKubeconfigWins(k: KubeAPI, block: seq<Directive>)
    requires ApplyBlock(k, block).Returns? && ApplyBlock(k, block).value.Ok?
    ensures ApplyBlock(k, block).value.value.clientConfig ==
      match LastArgs(block, "kubeconfig")
      case Some(a) => if |a| == 2 then Some(KubeConfig(a[0], a[1])) else None
      case None => k.clientConfig
    decreases |block|
  {
    if block != [] {
      var d, rest := block[0], block[1..];
      StepOk(k, block);
      var k' := ApplyDirective(k, d).value.value;
      ApplyDirectiveFields(k, d);
      LastKubeconfigWins(k', rest);
      assert [d] + rest == block;
      LastArgsCons(d, rest, "kubeconfig");
    }
  }

  /** `parse`: no stanza yields a nil plugin and no error; the first stanza
      is parsed; a second one is refused with ErrOnce. */
  function Parse(blocks: seq<seq<Directive>>): (r: Run<Result<Option<KubeAPI>, ParseError>>)
    ensures |blocks| == 0 ==> r == Returns(Ok(None))
    ensures |blocks| > 0 && ParseStanza(blocks[0]).Panics? ==> r.Panics?
    ensures |blocks| > 0 && ParseStanza(blocks[0]).Returns? && ParseStanza(blocks[0]).value.Err? ==>
              r == Returns(Err(ParseStanza(blocks[0]).value.error))
    ensures |blocks| > 1 && ParseStanza(blocks[0]).Returns? && ParseStanza(blocks[0]).value.Ok? ==>
              r == Returns(Err(ErrOnce))
    ensures |blocks| == 1 && ParseStanza(blocks[0]).Returns? && ParseStanza(blocks[0]).value.Ok? ==>
              r == Returns(Ok(Some(ParseStanza(blocks[0]).value.value)))
  {
    if |blocks| == 0 then Returns(Ok(None))
    else
      match ParseStanza(blocks[0])
      case Panics(why) => Panics(why)
      case Returns(Err(e)) => Returns(Err(e))
      case Returns(Ok(k)) => if |blocks| > 1 then Returns(Err(ErrOnce)) else Returns(Ok(Some(k)))
  }
}
