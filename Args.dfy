/**
 * parseArgs (index.js:510-548): the command line after the program name,
 * read left to right. An argument starting with -- or - is an option and
 * may take the next argument as its value; the first other argument is the
 * command and the rest are positional.
 *
 * The specification reads the arguments as a sequence of tokens, each
 * consuming one argument or an option with its value; parsing is a fold of
 * those tokens into the parsed record.
 */
module Args {

  import opened Wrappers
  import opened JsString

  /** An option's value: a string, or true when the option has none. */
  datatype OptionValue = Flag | Text(s: string)

  /** What parseArgs returns; command None is null. */
  datatype Parsed = Parsed(command: Option<string>, positional: seq<string>, options: map<string, OptionValue>)

  const Empty := Parsed(None, [], map[])

  /**
   * parsed.options[key] = value on a plain object: every key becomes an own
   * property except __proto__, whose setter ignores a string or true.
   */
  function SetOption(options: map<string, OptionValue>, key: string, value: OptionValue): (r: map<string, OptionValue>)
    ensures key != "__proto__" ==> r == options[key := value]
    ensures key == "__proto__" ==> r == options
  {
    if key == "__proto__" then options else options[key := value]
  }

  /** One step of the parse: an option with the arguments it consumed, or a bare argument. */
  datatype Token =
    | Opt(key: string, value: OptionValue, consumed: seq<string>)
    | Bare(arg: string)

  function Consumed(t: Token): seq<string> {
    match t
    case Opt(_, _, consumed) => consumed
    case Bare(arg) => [arg]
  }

  /** arg.startsWith('--'). */
  predicate IsLong(arg: string) {
    |arg| >= 2 && arg[0] == '-' && arg[1] == '-'
  }

  /** arg.startsWith('-'). */
  predicate IsDashed(arg: string) {
    |arg| >= 1 && arg[0] == '-'
  }

  lemma DashTests(arg: string)
    ensures IsLong(arg) <==> StartsWith(arg, "--")
    ensures IsDashed(arg) <==> StartsWith(arg, "-")
  {
    if |arg| >= 2 {
      assert arg[..2] == [arg[0], arg[1]];
    }
    if |arg| >= 1 {
      assert arg[..1] == [arg[0]];
    }
  }

  /** An option at i takes the next argument when there is one and it does not start with -. */
  predicate TakesNext(args: seq<string>, i: nat) {
    i + 1 < |args| && !IsDashed(args[i + 1])
  }

  /**
   * The token starting at argument i. --k=v is split with split('=', 2):
   * the key is the text before the first =, the value the text between
   * the first and a second =. --k without = and -k take the next argument
   * when it qualifies, and are true otherwise.
   */
  function TokenAt(args: seq<string>, i: nat): (t: Token)
    requires i < |args|
    ensures |Consumed(t)| == Width(args, i)
    ensures Consumed(t) == args[i..i + Width(args, i)]
  {
    var arg := args[i];
    SplitHasSep(if |arg| >= 2 then arg[2..] else "", '=');
    if IsLong(arg) then
      var pieces := Split(arg[2..], '=');
      if |pieces| >= 2 then Opt(pieces[0], Text(pieces[1]), [arg])
      else if TakesNext(args, i) then Opt(pieces[0], Text(args[i + 1]), [arg, args[i + 1]])
      else Opt(pieces[0], Flag, [arg])
    else if IsDashed(arg) then
      var flag := arg[1..];
      if TakesNext(args, i) then Opt(flag, Text(args[i + 1]), [arg, args[i + 1]])
      else Opt(flag, Flag, [arg])
    else
      Bare(arg)
  }

  /** How many arguments the token at i consumes: two exactly when an option takes the next argument. */
  function Width(args: seq<string>, i: nat): (w: nat)
    requires i < |args|
    ensures 1 <= w <= 2 && i + w <= |args|
  {
    var arg := args[i];
    if IsDashed(arg) && TakesNext(args, i) && !(IsLong(arg) && '=' in arg[2..]) then 2 else 1
  }

  /** The tokens of args from argument i on. */
  function Tokens(args: seq<string>, i: nat): seq<Token>
    requires i <= |args|
    decreases |args| - i
  {
    if i == |args| then [] else [TokenAt(args, i)] + Tokens(args, i + Width(args, i))
  }

  /** The first token, then the tokens after what it consumed. */
  lemma TokensUnfold(args: seq<string>, i: nat)
    requires i < |args|
    ensures Tokens(args, i) == [TokenAt(args, i)] + Tokens(args, i + Width(args, i))
  {
  }

  /** The arguments a sequence of tokens consumed, in order. */
  function Flatten(ts: seq<Token>): seq<string> {
    if ts == [] then [] else Consumed(ts[0]) + Flatten(ts[1..])
  }

  lemma FlattenCons(t: Token, rest: seq<Token>)
    ensures Flatten([t] + rest) == Consumed(t) + Flatten(rest)
  {
    assert ([t] + rest)[1..] == rest;
  }

  /** The arguments consumed from i on: the first token's, then those after it. */
  lemma FlattenTokensUnfold(args: seq<string>, i: nat)
    requires i < |args|
    ensures Flatten(Tokens(args, i)) == Consumed(TokenAt(args, i)) + Flatten(Tokens(args, i + Width(args, i)))
  {
    TokensUnfold(args, i);
    FlattenCons(TokenAt(args, i), Tokens(args, i + Width(args, i)));
  }

  /** Every argument is consumed by exactly one token, in order: nothing skipped, nothing read twice. */
  lemma {:induction false} TokensConsumeAll(args: seq<string>, i: nat)
    requires i <= |args|
    ensures Flatten(Tokens(args, i)) == args[i..]
    decreases |args| - i
  {
    if i < |args| {
      var t := TokenAt(args, i);
      var n := i + Width(args, i);
      var rest := Tokens(args, n);
      TokensConsumeAll(args, n);
      FlattenTokensUnfold(args, i);
      assert Flatten(Tokens(args, i)) == args[i..n] + args[n..];
      assert args[i..] == args[i..n] + args[n..];
    }
  }

  /** How one token changes the parsed record. */
  function Apply(p: Parsed, t: Token): Parsed {
    match t
    case Opt(key, value, _) => p.(options := SetOption(p.options, key, value))
    case Bare(arg) =>
      if p.command.None? then p.(command := Some(arg)) else p.(positional := p.positional + [arg])
  }

  /** The tokens applied in order. */
  function Run(p: Parsed, ts: seq<Token>): Parsed
    decreases |ts|
  {
    if ts == [] then p else Run(Apply(p, ts[0]), ts[1..])
  }

  lemma RunCons(p: Parsed, t: Token, rest: seq<Token>)
    ensures Run(p, [t] + rest) == Run(Apply(p, t), rest)
  {
    assert ([t] + rest)[1..] == rest;
  }

  /** The parse of a command line. */
  function Parse(args: seq<string>): Parsed {
    Run(Empty, Tokens(args, 0))
  }

  /**
   * One pass of parseArgs's loop body at argument i: it records the token
   * there and returns the index of the last argument that token consumed.
   */
  method ParseOne(args: seq<string>, i: nat, parsed: Parsed) returns (next: Parsed, last: nat)
    requires i < |args|
    ensures next == Apply(parsed, TokenAt(args, i))
    ensures last + 1 == i + Width(args, i)
  {
    var arg := args[i];
    last := i;
    if IsLong(arg) {
      var pieces := Split(arg[2..], '=');
      var key := pieces[0];
      if |pieces| >= 2 {
        next := parsed.(options := SetOption(parsed.options, key, Text(pieces[1])));
      } else if i + 1 < |args| && !IsDashed(args[i + 1]) {
        next := parsed.(options := SetOption(parsed.options, key, Text(args[i + 1])));
        last := i + 1;
      } else {
        next := parsed.(options := SetOption(parsed.options, key, Flag));
      }
    } else if IsDashed(arg) {
      var flag := arg[1..];
      if i + 1 < |args| && !IsDashed(args[i + 1]) {
        next := parsed.(options := SetOption(parsed.options, flag, Text(args[i + 1])));
        last := i + 1;
      } else {
        next := parsed.(options := SetOption(parsed.options, flag, Flag));
      }
    } else {
      if parsed.command.None? {
        next := parsed.(command := Some(arg));
      } else {
        next := parsed.(positional := parsed.positional + [arg]);
      }
    }
  }

  /** Running the tokens from i is running the first one, then the tokens after it. */
  lemma RunTokensUnfold(p: Parsed, args: seq<string>, i: nat)
    requires i < |args|
    ensures Run(p, Tokens(args, i)) == Run(Apply(p, TokenAt(args, i)), Tokens(args, i + Width(args, i)))
  {
    TokensUnfold(args, i);
    RunCons(p, TokenAt(args, i), Tokens(args, i + Width(args, i)));
  }

  /** The parse from argument i on, starting from p, one token at a time. */
  function ParseFrom(p: Parsed, args: seq<string>, i: nat): Parsed
    requires i <= |args|
    decreases |args| - i
  {
    if i == |args| then p else ParseFrom(Apply(p, TokenAt(args, i)), args, i + Width(args, i))
  }

  /** Parsing token by token is folding the token sequence. */
  lemma {:induction false} ParseFromRun(p: Parsed, args: seq<string>, i: nat)
    requires i <= |args|
    ensures ParseFrom(p, args, i) == Run(p, Tokens(args, i))
    decreases |args| - i
  {
    if i < |args| {
      var t := TokenAt(args, i);
      ParseFromRun(Apply(p, t), args, i + Width(args, i));
      RunTokensUnfold(p, args, i);
    }
  }

  /** parseArgs over process.argv.slice(2): one pass, i advanced once more when a value is taken. */
  method ParseArgs(args: seq<string>) returns (parsed: Parsed)
    ensures parsed == Parse(args)
  {
    parsed := Empty;
    var i := 0;
    while i < |args|
      invariant 0 <= i <= |args|
      invariant ParseFrom(parsed, args, i) == ParseFrom(Empty, args, 0)
      decreases |args| - i
    {
      parsed, i := ParseOne(args, i, parsed);
      i := i + 1;
    }
    ParseFromRun(Empty, args, 0);
  }

  // ------------------------------------------------------------------
  // What the parse gives
  // ------------------------------------------------------------------

  /** The bare arguments among the tokens, in order. */
  function Bares(ts: seq<Token>): seq<string> {
    if ts == [] then []
    else (if ts[0].Bare? then [ts[0].arg] else []) + Bares(ts[1..])
  }

  /** Once a command is set, bare arguments are appended to the positional list in order. */
  lemma {:induction false} RunBaresAfterCommand(p: Parsed, ts: seq<Token>)
    requires p.command.Some?
    ensures Run(p, ts).command == p.command
    ensures Run(p, ts).positional == p.positional + Bares(ts)
    decreases |ts|
  {
    if ts != [] {
      RunBaresAfterCommand(Apply(p, ts[0]), ts[1..]);
      if ts[0].Bare? {
        assert p.positional + Bares(ts) == p.positional + [ts[0].arg] + Bares(ts[1..]);
      }
    }
  }

  /** With no command yet, the first bare argument becomes the command and the later ones positional. */
  lemma {:induction false} RunBaresBeforeCommand(p: Parsed, ts: seq<Token>)
    requires p.command.None?
    ensures Bares(ts) == [] ==> Run(p, ts).command == None && Run(p, ts).positional == p.positional
    ensures Bares(ts) != [] ==>
      Run(p, ts).command == Some(Bares(ts)[0]) && Run(p, ts).positional == p.positional + Bares(ts)[1..]
    decreases |ts|
  {
    if ts != [] {
      if ts[0].Bare? {
        RunBaresAfterCommand(Apply(p, ts[0]), ts[1..]);
        assert Bares(ts) == [ts[0].arg] + Bares(ts[1..]);
      } else {
        RunBaresBeforeCommand(Apply(p, ts[0]), ts[1..]);
      }
    }
  }

  /** The first bare argument is the command (null when there is none); the later ones are positional, in order. */
  lemma {:induction false} CommandAndPositional(args: seq<string>)
    ensures var bares := Bares(Tokens(args, 0));
      (bares == [] ==> Parse(args).command == None && Parse(args).positional == []) &&
      (bares != [] ==> Parse(args).command == Some(bares[0]) && Parse(args).positional == bares[1..])
  {
    RunBaresBeforeCommand(Empty, Tokens(args, 0));
  }

  /** Running a prefix and then the rest is running the whole. */
  lemma {:induction false} RunAppend(p: Parsed, a: seq<Token>, b: seq<Token>)
    ensures Run(p, a + b) == Run(Run(p, a), b)
    decreases |a|
  {
    if a == [] {
      assert a + b == b;
    } else {
      assert (a + b)[0] == a[0];
      assert (a + b)[1..] == a[1..] + b;
      RunAppend(Apply(p, a[0]), a[1..], b);
    }
  }

  /** Tokens that never set key leave its entry as it was. */
  lemma {:induction false} RunKeeps(p: Parsed, ts: seq<Token>, key: string)
    requires key == "__proto__" || forall j :: 0 <= j < |ts| && ts[j].Opt? ==> ts[j].key != key
    ensures (key in Run(p, ts).options <==> key in p.options)
    ensures key in p.options ==> Run(p, ts).options[key] == p.options[key]
    decreases |ts|
  {
    if ts != [] {
      RunKeeps(Apply(p, ts[0]), ts[1..], key);
    }
  }

  /**
   * A later value for a key overwrites an earlier one: the option set last
   * for a key is the one parsed, whatever came before it.
   */
  lemma {:induction false} LastWriteWins(ts: seq<Token>, j: nat)
    requires j < |ts| && ts[j].Opt? && ts[j].key != "__proto__"
    requires forall l :: j < l < |ts| && ts[l].Opt? ==> ts[l].key != ts[j].key
    ensures ts[j].key in Run(Empty, ts).options
    ensures Run(Empty, ts).options[ts[j].key] == ts[j].value
  {
    var key := ts[j].key;
    assert ts == ts[..j] + ([ts[j]] + ts[j + 1..]);
    RunAppend(Empty, ts[..j], [ts[j]] + ts[j + 1..]);
    var q := Run(Empty, ts[..j]);
    assert Run(q, [ts[j]] + ts[j + 1..]) == Run(Apply(q, ts[j]), ts[j + 1..]);
    RunKeeps(Apply(q, ts[j]), ts[j + 1..], key);
  }

  /** A key no option names is absent, and __proto__ never becomes an option. */
  lemma {:induction false} UnsetKeyAbsent(ts: seq<Token>, key: string)
    requires key == "__proto__" || forall j :: 0 <= j < |ts| && ts[j].Opt? ==> ts[j].key != key
    ensures key !in Run(Empty, ts).options
  {
    RunKeeps(Empty, ts, key);
  }

  /** The first piece of value + tail split at =, when value holds no = and tail is empty or starts with one. */
  lemma {:induction false} SplitHead(value: string, tail: string)
    requires '=' !in value
    requires tail == "" || tail[0] == '='
    ensures Split(value + tail, '=')[0] == value
    ensures tail != "" ==> |Split(value + tail, '=')| >= 2
  {
    if tail == "" {
      assert value + tail == value;
      SplitNoSep(value, '=');
    } else {
      assert value + tail == value + ['='] + tail[1..];
      SplitFirst(value, '=', tail[1..]);
    }
  }

  /** --key=value sets key to value, and anything from a second = on is dropped. */
  lemma {:induction false} LongOptionWithValue(args: seq<string>, i: nat, key: string, value: string, tail: string)
    requires i < |args| && args[i] == "--" + key + "=" + value + tail
    requires '=' !in key && '=' !in value
    requires tail == "" || tail[0] == '='
    ensures TokenAt(args, i) == Opt(key, Text(value), [args[i]])
  {
    var arg := args[i];
    assert arg == "--" + (key + ['='] + (value + tail));
    assert IsLong(arg);
    assert arg[2..] == key + ['='] + (value + tail);
    SplitFirst(key, '=', value + tail);
    SplitHead(value, tail);
    var pieces := Split(arg[2..], '=');
    assert pieces == [key] + Split(value + tail, '=');
    assert pieces[0] == key && pieces[1] == value;
  }

  /**
   * --key without = and -key take the next argument as the value when it
   * exists and does not start with -, and are true otherwise.
   */
  lemma {:induction false} OptionTakesNext(args: seq<string>, i: nat, key: string, long: bool)
    requires i < |args| && args[i] == (if long then "--" else "-") + key
    requires long ==> '=' !in key
    requires !long ==> !IsLong(args[i])
    ensures TokenAt(args, i).Opt? && TokenAt(args, i).key == key
    ensures TokenAt(args, i).value == (if TakesNext(args, i) then Text(args[i + 1]) else Flag)
  {
    var arg := args[i];
    if long {
      assert arg[2..] == key;
      SplitNoSep(key, '=');
    } else {
      assert arg[1..] == key;
    }
  }
}
