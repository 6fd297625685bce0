/** The configuration stanzas the two plugins read, abstracted from Caddy's
    token dispenser: a stanza is the arguments on the plugin's own line and
    the directives of its block, each a name with its arguments. */
module Config {
  import opened Wrappers

  datatype Directive = Directive(name: string, args: seq<string>)

  datatype Stanza = Stanza(args: seq<string>, block: seq<Directive>)

  datatype ParseError =
    | ErrOnce                        // the plugin appears twice in one server block
    | ArgErr(directive: string)      // wrong number of arguments
    | UnknownProperty(name: string)
    | NumError(input: string)        // strconv.Atoi refused the text
    | TtlOutOfRange(ttl: int)

  /** The position of the last directive called `name`, or -1. */
  function LastIndex(block: seq<Directive>, name: string): (i: int)
    ensures -1 <= i < |block|
    ensures i >= 0 ==> block[i].name == name
    ensures forall j :: i < j < |block| ==> block[j].name != name
  {
    if block == [] then -1
    else if block[|block| - 1].name == name then |block| - 1
    else LastIndex(block[..|block| - 1], name)
  }

  /** The arguments of the last directive called `name`, scanning from the end. */
  function LastArgs(block: seq<Directive>, name: string): (r: Option<seq<string>>)
    ensures r.None? <==> forall i :: 0 <= i < |block| ==> block[i].name != name
    ensures r.Some? ==> exists i :: 0 <= i < |block| && block[i] == Directive(name, r.value) &&
                                   forall j :: i < j < |block| ==> block[j].name != name
  {
    var i := LastIndex(block, name);
    if i < 0 then None
    else
      assert block[i] == Directive(name, block[i].args);
      Some(block[i].args)
  }

  lemma LastArgsSnoc(block: seq<Directive>, d: Directive, name: string)
    ensures LastArgs(block + [d], name) == if d.name == name then Some(d.args) else LastArgs(block, name)
  {
    assert (block + [d])[..|block|] == block;
  }

  /** Prepending a directive only matters when nothing later overrides it. */
  lemma {:induction false} LastArgsCons(d: Directive, rest: seq<Directive>, name: string)
    ensures LastArgs([d] + rest, name) == if LastArgs(rest, name).Some? then LastArgs(rest, name)
                                          else if d.name == name then Some(d.args) else None
    decreases |rest|
  {
    if rest != [] {
      var init := rest[..|rest| - 1];
      var last := rest[|rest| - 1];
      LastArgsCons(d, init, name);
      assert [d] + rest == ([d] + init) + [last];
      assert rest == init + [last];
      LastArgsSnoc([d] + init, last, name);
      LastArgsSnoc(init, last, name);
    }
  }
}
