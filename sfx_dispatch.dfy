/**
 * `Sfx.executeMessage`: the words after the command name select one sfx
 * subcommand and its parameters. A word past the end of the list is
 * `undefined` in the source and `None` here.
 */
module SfxDispatch {
  import opened Wrappers
  import opened Text
  import opened SfxAdd

  /** The subcommand call `executeMessage` makes, with its parameters. */
  datatype SfxCommand =
    | List
    | Del(alias: Option<string>)
    | Add(params: AddParams)
    | Chain(chain: string)
    | Play(alias: Option<string>)
    | Help

  /** `args[k]`. */
  function Arg(args: seq<string>, k: nat): (r: Option<string>)
    ensures r.Some? <==> k < |args|
    ensures r.Some? ==> r.value == args[k]
  {
    if k < |args| then Some(args[k]) else None
  }

  /** `(args.length > k - 1 && args[k]) || undefined`: a missing or empty word is `undefined`. */
  function OptionalArg(args: seq<string>, k: nat): (r: Option<string>)
    ensures r.Some? <==> k < |args| && args[k] != ""
    ensures r.Some? ==> r.value == args[k]
  {
    if k < |args| && args[k] != "" then Some(args[k]) else None
  }

  function Dispatch(args: seq<string>): SfxCommand {
    var first := Arg(args, 0);
    if first == Some("list") then List
    else if first == Some("del") then Del(Arg(args, 1))
    else if first == Some("add") then
      Add(AddParams(Arg(args, 1), Arg(args, 2), OptionalArg(args, 3), OptionalArg(args, 4)))
    else if first == Some("chain") then Chain(Join(args[1..], " "))
    else if first == Some("play") then Play(Arg(args, 1))
    else if first == Some("help") then Help
    else Play(first)
  }

  /** `list` and `help` take no parameters, whatever follows them. */
  lemma DispatchNoParameters(rest: seq<string>)
    ensures Dispatch(["list"] + rest) == List
    ensures Dispatch(["help"] + rest) == Help
  {
  }

  /** `del` and `play` pass the second word as the alias, `undefined` when there is none. */
  lemma DispatchAliasWord(name: string, rest: seq<string>)
    requires name == "del" || name == "play"
    ensures var alias := if rest == [] then None else Some(rest[0]);
            Dispatch([name] + rest) == (if name == "del" then Del(alias) else Play(alias))
  {
  }

  /**
   * `add` passes alias, url, start and end from the next four words; a start
   * or end that is absent or empty is `undefined`, while alias and url are
   * passed even when empty.
   */
  lemma DispatchAdd(args: seq<string>)
    requires args != [] && args[0] == "add"
    ensures Dispatch(args).Add?
    ensures var p := Dispatch(args).params;
            (p.alias.Some? <==> |args| > 1) && (p.alias.Some? ==> p.alias.value == args[1]) &&
            (p.url.Some? <==> |args| > 2) && (p.url.Some? ==> p.url.value == args[2]) &&
            (p.startTime.Some? <==> |args| > 3 && args[3] != "") && (p.startTime.Some? ==> p.startTime.value == args[3]) &&
            (p.endTime.Some? <==> |args| > 4 && args[4] != "") && (p.endTime.Some? ==> p.endTime.value == args[4])
  {
  }

  /** Any other first word, or none at all, is played as an alias. */
  lemma DispatchDefault(args: seq<string>)
    requires args == [] || args[0] !in ["list", "del", "add", "chain", "play", "help"]
    ensures Dispatch(args) == Play(if args == [] then None else Some(args[0]))
  {
  }

  /**
   * `chain` joins the remaining words with single spaces, so a chain typed as
   * separator-free words reaches the chain splitter as those same words.
   */
  lemma DispatchChainWords(words: seq<string>)
    requires |words| >= 1
    requires forall k :: 0 <= k < |words| ==> words[k] != "" && NoChainSep(words[k])
    ensures Dispatch(["chain"] + words) == Chain(Join(words, " "))
    ensures SplitChain(Dispatch(["chain"] + words).chain) == words
  {
    var args := ["chain"] + words;
    assert args[1..] == words;
    DispatchChain(args);
    SplitChainJoin(words);
  }

  lemma DispatchChain(args: seq<string>)
    requires args != [] && args[0] == "chain"
    ensures Dispatch(args) == Chain(Join(args[1..], " "))
  {
  }

  /** A bare `chain` asks for an empty chain, which the chain command refuses. */
  lemma DispatchEmptyChain()
    ensures Dispatch(["chain"]) == Chain("")
  {
  }
}
