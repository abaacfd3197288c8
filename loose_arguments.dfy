/**
 * A forgiving command-line parser (Libraries/LooseArguments.cs).
 *
 * A token that starts with the prefix character opens an option; the option
 * takes at most one value, the next plain token. Every other plain token is a
 * positional argument. When an option repeats, its last value wins. `null`
 * tokens and option values are `None`.
 */
module LooseArgs {
  import opened Wrappers

  /** char.IsWhiteSpace: the Unicode space separators, line and paragraph separators, and U+0009-U+000D, U+0085. */
  predicate IsWhiteSpace(c: char)
  {
    || ('\t' <= c <= '\r')
    || c == ' '
    || c == '\U{0085}'
    || c == '\U{00A0}'
    || c == '\U{1680}'
    || ('\U{2000}' <= c <= '\U{200A}')
    || c == '\U{2028}'
    || c == '\U{2029}'
    || c == '\U{202F}'
    || c == '\U{205F}'
    || c == '\U{3000}'
  }

  /** The characters TrimLeft removes from the front of an option token. */
  predicate Trimmable(prefix: char, c: char)
  {
    IsWhiteSpace(c) || c == prefix
  }

  /** The token with every leading prefix and white-space character removed. */
  function Trimmed(prefix: char, s: string): (r: string)
    ensures |r| <= |s| && r == s[|s| - |r|..]
    ensures |r| > 0 ==> !Trimmable(prefix, r[0])
    ensures forall i :: 0 <= i < |s| - |r| ==> Trimmable(prefix, s[i])
    decreases |s|
  {
    if |s| > 0 && Trimmable(prefix, s[0]) then Trimmed(prefix, s[1..]) else s
  }

  predicate NullOrEmpty(token: Option<string>)
  {
    token.None? || token.value == ""
  }

  /** What Parse has built so far, and the option still waiting for a value ("" for none). */
  datatype ParseState = ParseState(arguments: seq<string>, options: map<string, Option<string>>, pending: string)

  /** One iteration of Parse's loop. */
  function Step(prefix: char, st: ParseState, token: Option<string>): ParseState
  {
    if NullOrEmpty(token) then st
    else
      var s := token.value;
      if s[0] == prefix then
        var options := if st.pending != "" then st.options[st.pending := None] else st.options;
        ParseState(st.arguments, options, Trimmed(prefix, s))
      else if st.pending != "" then
        ParseState(st.arguments, st.options[st.pending := Some(s)], "")
      else
        ParseState(st.arguments + [s], st.options, "")
  }

  /** Parse's loop over all tokens, left to right. */
  function Steps(prefix: char, st: ParseState, args: seq<Option<string>>): ParseState
    decreases |args|
  {
    if |args| == 0 then st else Steps(prefix, Step(prefix, st, args[0]), args[1..])
  }

  /** After the loop: an option still waiting for a value is stored with a null value. */
  function Finish(st: ParseState): ParseState
  {
    if st.pending != "" then ParseState(st.arguments, st.options[st.pending := None], "") else st
  }

  /** The positional list and option table Parse leaves, starting from the given ones. */
  function Parsed(prefix: char, arguments: seq<string>, options: map<string, Option<string>>,
                  args: seq<Option<string>>): ParseState
  {
    Finish(Steps(prefix, ParseState(arguments, options, ""), args))
  }

  /** The prefix the source's constructors use when the caller gives none. */
  const DefaultPrefix: char := '-'

  class LooseArguments {
    var prefix: char
    var arguments: seq<string>
    var options: map<string, Option<string>>

    constructor (prefix: char)
      ensures this.prefix == prefix && arguments == [] && options == map[]
    {
      this.prefix := prefix;
      arguments := [];
      options := map[];
    }

    /** The constructor that parses `args` at once. */
    constructor Parsing(args: seq<Option<string>>, prefix: char)
      ensures this.prefix == prefix
      ensures ParseState(arguments, options, "") == Parsed(prefix, [], map[], args)
    {
      this.prefix := prefix;
      arguments := [];
      options := map[];
      new;
      Parse(args);
    }

    /** Parses `args`, adding to the positional list and option table already present. */
    method Parse(args: seq<Option<string>>)
      modifies this
      ensures prefix == old(prefix)
      ensures ParseState(arguments, options, "") == Parsed(prefix, old(arguments), old(options), args)
    {
      ghost var start := ParseState(arguments, options, "");
      var option := "";
      for i := 0 to |args|
        invariant prefix == old(prefix)
        invariant ParseState(arguments, options, option) == Steps(prefix, start, args[..i])
      {
        StepsSnoc(prefix, start, args[..i], args[i]);
        assert args[..i + 1] == args[..i] + [args[i]];
        var s := args[i];
        if NullOrEmpty(s) {
          continue;
        }
        if s.value[0] == prefix {
          if option != "" {
            UpdateOption(option, None);
          }
          option := TrimLeft(s.value);
        } else if option != "" {
          UpdateOption(option, s);
          option := "";
        } else {
          arguments := arguments + [s.value];
        }
      }
      assert args[..|args|] == args;
      if option != "" {
        UpdateOption(option, None);
      }
    }

    /** Get(): the positional arguments. */
    function Get(): (r: seq<string>)
      reads this
      ensures r == arguments
    {
      arguments
    }

    /** Contains: whether the option was given. */
    function Contains(option: string): (r: bool)
      reads this
      ensures r <==> option in options
    {
      option in options
    }

    /** Get(string): the option's value, or null when the option was not given. */
    function GetOption(option: string): (r: Option<string>)
      reads this
      ensures !Contains(option) ==> r.None?
      ensures Contains(option) ==> r == options[option]
      ensures r.Some? ==> Contains(option) && options[option] == r
    {
      if Contains(option) then options[option] else None
    }

    /** Removes the leading prefix and white-space characters of an option token. */
    method TrimLeft(option: string) returns (r: string)
      ensures r == Trimmed(prefix, option)
    {
      var index := 0;
      while index < |option|
        invariant 0 <= index <= |option|
        invariant Trimmed(prefix, option) == Trimmed(prefix, option[index..])
      {
        var c := option[index];
        if !IsWhiteSpace(c) && c != prefix {
          break;
        }
        assert option[index..][1..] == option[index + 1..];
        index := index + 1;
      }
      r := option[index..];
    }

    /** Adds the option, or overwrites its value when it is already present. */
    method UpdateOption(key: string, value: Option<string>)
      modifies this
      ensures options == old(options)[key := value]
      ensures arguments == old(arguments) && prefix == old(prefix)
    {
      // One map update covers both branches of the source: the overwrite of an
      // existing key and the insertion of a new one.
      options := options[key := value];
    }
  }

  // ---------------------------------------------------------------------------
  // Properties of the parser.

  /** Running the loop over a + b is running it over a, then over b. */
  lemma {:induction false} StepsAppend(prefix: char, st: ParseState, a: seq<Option<string>>, b: seq<Option<string>>)
    ensures Steps(prefix, st, a + b) == Steps(prefix, Steps(prefix, st, a), b)
    decreases |a|
  {
    if |a| > 0 {
      assert (a + b)[0] == a[0];
      assert (a + b)[1..] == a[1..] + b;
      StepsAppend(prefix, Step(prefix, st, a[0]), a[1..], b);
    } else {
      assert a + b == b;
    }
  }

  lemma StepsSnoc(prefix: char, st: ParseState, a: seq<Option<string>>, t: Option<string>)
    ensures Steps(prefix, st, a + [t]) == Step(prefix, Steps(prefix, st, a), t)
  {
    StepsAppend(prefix, st, a, [t]);
  }

  /** A null or empty token changes nothing: not the positional list, not the options, not the pending option. */
  lemma SkipsNullOrEmpty(prefix: char, st: ParseState, a: seq<Option<string>>, t: Option<string>, b: seq<Option<string>>)
    requires NullOrEmpty(t)
    ensures Steps(prefix, st, a + [t] + b) == Steps(prefix, st, a + b)
  {
    StepsAppend(prefix, st, a + [t], b);
    StepsAppend(prefix, st, a, b);
    StepsSnoc(prefix, st, a, t);
  }

  /** A key that Parse can store: not empty, and not starting with the prefix or white space. */
  predicate GoodKey(prefix: char, key: string)
  {
    key != "" && !Trimmable(prefix, key[0])
  }

  predicate GoodKeys(prefix: char, st: ParseState)
  {
    && (forall k :: k in st.options ==> GoodKey(prefix, k))
    && (st.pending == "" || GoodKey(prefix, st.pending))
  }

  lemma {:induction false} StepsKeepGoodKeys(prefix: char, st: ParseState, args: seq<Option<string>>)
    requires GoodKeys(prefix, st)
    ensures GoodKeys(prefix, Steps(prefix, st, args))
    decreases |args|
  {
    if |args| > 0 {
      StepsKeepGoodKeys(prefix, Step(prefix, st, args[0]), args[1..]);
    }
  }

  /** Every option key Parse stores is non-empty and starts with neither the prefix nor white space. */
  lemma ParsedKeysAreTrimmed(prefix: char, args: seq<Option<string>>)
    ensures forall k :: k in Parsed(prefix, [], map[], args).options ==> GoodKey(prefix, k)
  {
    StepsKeepGoodKeys(prefix, ParseState([], map[], ""), args);
  }

  /** A pending option followed by a plain token takes it as its value; the token is not positional. */
  lemma OptionTakesNextPlainToken(prefix: char, st: ParseState, opt: string, value: string)
    requires opt != "" && opt[0] == prefix && Trimmed(prefix, opt) != ""
    requires value != "" && value[0] != prefix
    ensures var r := Steps(prefix, st, [Some(opt), Some(value)]);
      && Trimmed(prefix, opt) in r.options && r.options[Trimmed(prefix, opt)] == Some(value)
      && r.arguments == st.arguments
      && r.pending == ""
  {
    TwoSteps(prefix, st, Some(opt), Some(value));
  }

  lemma TwoSteps(prefix: char, st: ParseState, a: Option<string>, b: Option<string>)
    ensures Steps(prefix, st, [a, b]) == Step(prefix, Step(prefix, st, a), b)
  {
    assert [a, b][1..] == [b];
    assert [b][1..] == [];
    var s1 := Step(prefix, st, a);
    assert Steps(prefix, st, [a, b]) == Steps(prefix, s1, [b]);
    assert Steps(prefix, s1, [b]) == Steps(prefix, Step(prefix, s1, b), []);
  }

  /** A pending option followed by another option token is stored with a null value. */
  lemma OptionBeforeOptionIsNull(prefix: char, st: ParseState, opt: string)
    requires st.pending != ""
    requires opt != "" && opt[0] == prefix
    ensures Step(prefix, st, Some(opt)).options == st.options[st.pending := None]
  {
  }

  /** A pending option at the end of the input is stored with a null value. */
  lemma OptionAtEndIsNull(prefix: char, st: ParseState)
    requires st.pending != ""
    ensures Finish(st).options == st.options[st.pending := None]
    ensures Finish(st).arguments == st.arguments
  {
  }

  /** No token of `after` opens the option `k`: none is a prefixed token whose key is `k`. */
  predicate NeverOpens(prefix: char, after: seq<Option<string>>, k: string)
  {
    forall i :: 0 <= i < |after| ==>
      NullOrEmpty(after[i]) || after[i].value[0] != prefix || Trimmed(prefix, after[i].value) != k
  }

  /**
   * A stored option that is not pending keeps its value through tokens that
   * never open it again: other options and plain tokens leave it alone.
   */
  lemma {:induction false} KeepsKey(prefix: char, st: ParseState, after: seq<Option<string>>, k: string)
    requires k != "" && k in st.options && st.pending != k
    requires NeverOpens(prefix, after, k)
    ensures var r := Steps(prefix, st, after);
      k in r.options && r.options[k] == st.options[k] && r.pending != k
    decreases |after|
  {
    if |after| > 0 {
      assert NeverOpens(prefix, after[1..], k) by {
        forall i | 0 <= i < |after[1..]|
          ensures NullOrEmpty(after[1..][i]) || after[1..][i].value[0] != prefix
                  || Trimmed(prefix, after[1..][i].value) != k
        {
          assert after[1..][i] == after[i + 1];
        }
      }
      KeepsKey(prefix, Step(prefix, st, after[0]), after[1..], k);
    }
  }

  /**
   * When an option repeats, the last value wins: whatever came before, an
   * option token followed by a plain token leaves exactly that value stored,
   * as long as no later token opens the same option again.
   */
  lemma LastValueWins(prefix: char, arguments: seq<string>, options: map<string, Option<string>>,
                      before: seq<Option<string>>, opt: string, value: string, after: seq<Option<string>>)
    requires opt != "" && opt[0] == prefix && Trimmed(prefix, opt) != ""
    requires value != "" && value[0] != prefix
    requires NeverOpens(prefix, after, Trimmed(prefix, opt))
    ensures var r := Parsed(prefix, arguments, options, before + [Some(opt), Some(value)] + after);
      Trimmed(prefix, opt) in r.options && r.options[Trimmed(prefix, opt)] == Some(value)
  {
    var st := ParseState(arguments, options, "");
    var pair := [Some(opt), Some(value)];
    StepsAppend(prefix, st, before + pair, after);
    StepsAppend(prefix, st, before, pair);
    OptionTakesNextPlainToken(prefix, Steps(prefix, st, before), opt, value);
    KeepsKey(prefix, Steps(prefix, st, before + pair), after, Trimmed(prefix, opt));
  }

  /**
   * A token made only of prefix and white-space characters opens no option:
   * its key would be "", which is never stored, and the next plain token is positional.
   */
  lemma EmptyOptionIsDropped(prefix: char, st: ParseState, opt: string, value: string)
    requires opt != "" && opt[0] == prefix && Trimmed(prefix, opt) == ""
    requires value != "" && value[0] != prefix
    ensures var r := Steps(prefix, st, [Some(opt), Some(value)]);
      && r.arguments == st.arguments + [value]
      && r.options == (if st.pending != "" then st.options[st.pending := None] else st.options)
      && ("" in r.options ==> "" in st.options)
  {
    TwoSteps(prefix, st, Some(opt), Some(value));
  }

  /** `xs` is what is left of `ys` after deleting some tokens and unwrapping the rest. */
  predicate SubsequenceOf(xs: seq<string>, ys: seq<Option<string>>)
    decreases |ys|
  {
    if |xs| == 0 then true
    else if |ys| == 0 then false
    else (ys[0] == Some(xs[0]) && SubsequenceOf(xs[1..], ys[1..])) || SubsequenceOf(xs, ys[1..])
  }

  /**
   * Parse only appends to the positional list, and what it appends are
   * non-empty, non-prefixed tokens of the input, in input order.
   */
  lemma {:induction false} PositionalsInInputOrder(prefix: char, st: ParseState, args: seq<Option<string>>)
    ensures var r := Steps(prefix, st, args);
      && |st.arguments| <= |r.arguments|
      && r.arguments[..|st.arguments|] == st.arguments
      && SubsequenceOf(r.arguments[|st.arguments|..], args)
      && (forall i :: |st.arguments| <= i < |r.arguments| ==> r.arguments[i] != "" && r.arguments[i][0] != prefix)
    decreases |args|
  {
    if |args| > 0 {
      var next := Step(prefix, st, args[0]);
      PositionalsInInputOrder(prefix, next, args[1..]);
      var r := Steps(prefix, st, args);
      var added := r.arguments[|st.arguments|..];
      var later := r.arguments[|next.arguments|..];
      if next.arguments == st.arguments {
        assert added == later;
        SubsequenceSkip(added, args);
      } else {
        assert next.arguments == st.arguments + [args[0].value];
        assert added == [args[0].value] + later;
        assert added[1..] == later;
      }
    }
  }

  lemma SubsequenceSkip(xs: seq<string>, ys: seq<Option<string>>)
    requires |ys| > 0 && SubsequenceOf(xs, ys[1..])
    ensures SubsequenceOf(xs, ys)
  {
  }

  /** With no option token in the input, every non-empty token is positional, in order. */
  lemma {:induction false} PlainTokensArePositional(prefix: char, st: ParseState, args: seq<Option<string>>)
    requires st.pending == ""
    requires forall i :: 0 <= i < |args| ==> NullOrEmpty(args[i]) || args[i].value[0] != prefix
    ensures Steps(prefix, st, args) == ParseState(st.arguments + NonEmpty(args), st.options, "")
    decreases |args|
  {
    if |args| > 0 {
      var next := Step(prefix, st, args[0]);
      PlainTokensArePositional(prefix, next, args[1..]);
      if !NullOrEmpty(args[0]) {
        assert st.arguments + NonEmpty(args) == next.arguments + NonEmpty(args[1..]);
      }
    }
  }

  /** The non-null, non-empty tokens, unwrapped. */
  function NonEmpty(args: seq<Option<string>>): seq<string>
    decreases |args|
  {
    if |args| == 0 then []
    else if NullOrEmpty(args[0]) then NonEmpty(args[1..])
    else [args[0].value] + NonEmpty(args[1..])
  }
}
