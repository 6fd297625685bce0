/** Configuration of the podnames example: the zones on the plugin line
    (or the server block's keys) and an optional `ttl` directive. */
module PodNamesSetup {
  import opened Wrappers
  import opened Config
  import opened Strconv
  import opened PodNamesPlugin

  const DefaultTtl := 5
  const MaxTtl := 3600

  /** The zones the plugin answers for: the stanza's own arguments when it
      has any, otherwise the server block's keys, each normalised in place.
      Host normalisation is Caddy's and is a parameter here. */
  function Zones(args: seq<string>, keys: seq<string>, normalize: string -> string): (z: seq<string>)
    ensures |args| > 0 ==> |z| == |args| && forall i :: 0 <= i < |z| ==> z[i] == normalize(args[i])
    ensures |args| == 0 ==> |z| == |keys| && forall i :: 0 <= i < |z| ==> z[i] == normalize(keys[i])
  {
    var src := if |args| != 0 then args else keys;
    seq(|src|, i requires 0 <= i < |src| => normalize(src[i]))
  }

  /** A `ttl` directive the parser accepts. */
  predicate GoodTtl(d: Directive)
  {
    d.name == "ttl" && |d.args| > 0 && Atoi(d.args[0]).Ok? &&
    0 <= Atoi(d.args[0]).value <= MaxTtl
  }

  /** One directive of the block. */
  function ApplyDirective(p: PodNames, d: Directive): (r: Result<PodNames, ParseError>)
    ensures d.name != "ttl" ==> r == Err(UnknownProperty(d.name))
    ensures d.name == "ttl" && |d.args| == 0 ==> r == Err(ArgErr("ttl"))
    ensures d.name == "ttl" && |d.args| > 0 && Atoi(d.args[0]).Err? ==> r == Err(NumError(d.args[0]))
    ensures d.name == "ttl" && |d.args| > 0 && Atoi(d.args[0]).Ok? && !GoodTtl(d) ==>
              r == Err(TtlOutOfRange(Atoi(d.args[0]).value))
    ensures r.Ok? <==> GoodTtl(d)
    ensures r.Ok? ==> r.value.zones == p.zones && r.value.podIndexer == p.podIndexer &&
                      0 <= r.value.ttl <= MaxTtl
  {
    if d.name == "ttl" then
      if |d.args| == 0 then Err(ArgErr(d.name))
      else
        match Atoi(d.args[0])
        case Err(_) => Err(NumError(d.args[0]))
        case Ok(t) => if t < 0 || t > MaxTtl then Err(TtlOutOfRange(t)) else Ok(p.(ttl := t))
    else Err(UnknownProperty(d.name))
  }

  /** The block loop: directives in order, stopping at the first error. */
  function ApplyBlock(p: PodNames, block: seq<Directive>): Result<PodNames, ParseError>
    decreases |block|
  {
    if block == [] then Ok(p)
    else
      match ApplyDirective(p, block[0])
      case Err(e) => Err(e)
      case Ok(q) => ApplyBlock(q, block[1..])
  }

  /** `parseStanza`: no indexer yet, ttl 5 unless the block says otherwise. */
  function ParseStanza(s: Stanza, keys: seq<string>, normalize: string -> string): Result<PodNames, ParseError>
  {
    ApplyBlock(PodNames(Zones(s.args, keys, normalize), None, DefaultTtl), s.block)
  }

  /** A block succeeds exactly when each of its directives is an acceptable `ttl`. */
  lemma {:induction false} ApplyBlockSucceeds(p: PodNames, block: seq<Directive>)
    ensures ApplyBlock(p, block).Ok? <==> forall i :: 0 <= i < |block| ==> GoodTtl(block[i])
    decreases |block|
  {
    if block != [] && GoodTtl(block[0]) {
      ApplyBlockSucceeds(ApplyDirective(p, block[0]).value, block[1..]);
      assert forall i :: 0 <= i < |block[1..]| ==> block[1..][i] == block[i + 1];
    }
  }

  /** A successful block keeps the zones and the indexer, and leaves the ttl
      at the value of the last `ttl` line, or unchanged without one. */
  lemma {:induction false} LastTtlWins(p: PodNames, block: seq<Directive>)
    requires ApplyBlock(p, block).Ok?
    ensures var r := ApplyBlock(p, block).value;
      && r.zones == p.zones && r.podIndexer == p.podIndexer
      && match LastArgs(block, "ttl")
         case Some(a) => |a| > 0 && Atoi(a[0]).Ok? && r.ttl == Atoi(a[0]).value
         case None => r.ttl == p.ttl
    decreases |block|
  {
    if block != [] {
      var d, rest := block[0], block[1..];
      var q := ApplyDirective(p, d).value;
      LastTtlWins(q, rest);
      assert [d] + rest == block;
      LastArgsCons(d, rest, "ttl");
    }
  }

  /** Every configuration the parser accepts has a ttl in [0, 3600]; with no
      `ttl` line it is 5. */
  lemma ParsedTtlInRange(s: Stanza, keys: seq<string>, normalize: string -> string)
    requires ParseStanza(s, keys, normalize).Ok?
    ensures 0 <= ParseStanza(s, keys, normalize).value.ttl <= MaxTtl
    ensures LastArgs(s.block, "ttl").None? ==> ParseStanza(s, keys, normalize).value.ttl == DefaultTtl
    ensures ParseStanza(s, keys, normalize).value.podIndexer.None?
  {
    var p0 := PodNames(Zones(s.args, keys, normalize), None, DefaultTtl);
    LastTtlWins(p0, s.block);
    ApplyBlockSucceeds(p0, s.block);
    match LastArgs(s.block, "ttl")
    case None =>
    case Some(a) =>
      var i :| 0 <= i < |s.block| && s.block[i] == Directive("ttl", a);
      assert GoodTtl(s.block[i]);
  }

  /** `parse`: no stanza gives a nil plugin and no error; a second stanza
      is refused with ErrOnce. */
  function Parse(stanzas: seq<Stanza>, keys: seq<string>, normalize: string -> string)
    : (r: Result<Option<PodNames>, ParseError>)
    ensures |stanzas| == 0 ==> r == Ok(None)
    ensures |stanzas| > 0 && ParseStanza(stanzas[0], keys, normalize).Err? ==>
              r == Err(ParseStanza(stanzas[0], keys, normalize).error)
    ensures |stanzas| > 1 && ParseStanza(stanzas[0], keys, normalize).Ok? ==> r == Err(ErrOnce)
    ensures |stanzas| == 1 && ParseStanza(stanzas[0], keys, normalize).Ok? ==>
              r == Ok(Some(ParseStanza(stanzas[0], keys, normalize).value))
  {
    if |stanzas| == 0 then Ok(None)
    else
      match ParseStanza(stanzas[0], keys, normalize)
      case Err(e) => Err(e)
      case Ok(p) => if |stanzas| > 1 then Err(ErrOnce) else Ok(Some(p))
  }
}
