/** loadDotEnv (shared/config/config.go): a line parser and a fold into the process environment. */
module DotEnv {
  import opened Common

  /** unicode.IsSpace */
  predicate IsSpace(c: char) {
    || c == ' ' || '\t' <= c <= '\r' || c == '\U{0085}' || c == '\U{00A0}' || c == '\U{1680}'
    || '\U{2000}' <= c <= '\U{200A}' || c == '\U{2028}' || c == '\U{2029}' || c == '\U{202F}'
    || c == '\U{205F}' || c == '\U{3000}'
  }

  function TrimRight(s: string): (r: string)
    ensures r <= s && (r != "" ==> !IsSpace(r[|r| - 1]))
  {
    if s == "" || !IsSpace(s[|s| - 1]) then s else TrimRight(s[..|s| - 1])
  }

  function TrimLeft(s: string): (r: string)
    ensures |r| <= |s| && (r != "" ==> !IsSpace(r[0]))
  {
    if s == "" || !IsSpace(s[0]) then s else TrimLeft(s[1..])
  }

  function Trim(s: string): string {
    TrimLeft(TrimRight(s))
  }

  /** The index of the first `c`, or -1. */
  function IndexOf(s: string, c: char): (i: int)
    ensures -1 <= i < |s|
    ensures i >= 0 ==> s[i] == c && c !in s[..i]
    ensures i == -1 ==> c !in s
  {
    if s == "" then -1 else if s[0] == c then 0 else
      var i := IndexOf(s[1..], c);
      if i < 0 then -1 else
        assert s[..i + 1] == [s[0]] + s[1..][..i];
        i + 1
  }

  /** The index of the first space or tab, or -1. */
  function IndexOfBlank(s: string): (i: int)
    ensures -1 <= i < |s|
  {
    if s == "" then -1 else if s[0] == ' ' || s[0] == '\t' then 0 else
      var i := IndexOfBlank(s[1..]);
      if i < 0 then -1 else i + 1
  }

  predicate IsQuote(c: char) {
    c == '"' || c == '\''
  }

  /** A comment after an unquoted value: a '#' anywhere after the first blank. */
  predicate HasComment(value: string) {
    var i := IndexOfBlank(value);
    i >= 0 && '#' in value[i..]
  }

  /** What a trimmed right-hand side denotes. */
  function ParseValue(value: string): string {
    if value != "" && IsQuote(value[0]) then
      var end := IndexOf(value[1..], value[0]);
      if end >= 0 then value[1..1 + end] else value[1..]
    else if HasComment(value) then Trim(value[..IndexOfBlank(value)])
    else value
  }

  /** The assignment on a line, if it has one. */
  function ParseLine(text: string): Option<(string, string)> {
    var line := Trim(text);
    if line == "" || line[0] == '#' then None else
      var eq := IndexOf(line, '=');
      if eq < 0 then None
      else Some((Trim(line[..eq]), ParseValue(Trim(line[eq + 1..]))))
  }

  // ------------------------------------------------------------ trimming

  lemma {:induction false} TrimRightConcat(a: string, b: string)
    requires a != "" && !IsSpace(a[|a| - 1])
    ensures TrimRight(a + b) == a + TrimRight(b)
  {
    if b == "" {
      assert a + b == a;
    } else if IsSpace(b[|b| - 1]) {
      TrimRightConcat(a, b[..|b| - 1]);
      assert (a + b)[..|a + b| - 1] == a + b[..|b| - 1];
    }
  }

  lemma TrimOfTrimRight(s: string)
    ensures Trim(TrimRight(s)) == Trim(s)
  {}

  lemma TrimShortens(s: string)
    ensures |Trim(s)| <= |s|
  {}

  /** A key that survives parsing. */
  predicate PlainKey(key: string) {
    key != "" && Trim(key) == key && '=' !in key && key[0] != '#'
  }

  /** A line that starts with a plain key and '=' parses to that key and its right-hand side. */
  lemma {:induction false} KeyedLine(key: string, rest: string)
    requires PlainKey(key)
    ensures ParseLine(key + "=" + rest) == Some((key, ParseValue(Trim(rest))))
  {
    var line := key + "=" + TrimRight(rest);
    TrimRightConcat(key + "=", rest);
    assert line[0] == key[0] && !IsSpace(key[0]);
    assert Trim(key + "=" + rest) == line;
    FirstEquals(key, TrimRight(rest));
    assert line[..|key|] == key && line[|key| + 1..] == TrimRight(rest);
    TrimOfTrimRight(rest);
  }

  lemma {:induction false} FirstEquals(key: string, rest: string)
    requires '=' !in key
    ensures IndexOf(key + "=" + rest, '=') == |key|
  {
    FirstOccurrence(key, '=', rest);
    assert key + "=" + rest == key + ['='] + rest;
  }

  lemma {:induction false} FirstOccurrence(a: string, c: char, b: string)
    requires c !in a
    ensures IndexOf(a + [c] + b, c) == |a|
  {
    if a != "" {
      FirstOccurrence(a[1..], c, b);
      assert (a + [c] + b)[1..] == a[1..] + [c] + b;
    }
  }

  // ------------------------------------------------------------ round trips

  /**
   Quoting round-trips: a value between quotes that it does not contain comes back exactly,
   with its blanks, its '#' and the other quote, whatever follows the closing quote.
   */
  lemma {:induction false} QuotedRoundTrip(key: string, v: string, q: char, rest: string)
    requires PlainKey(key) && IsQuote(q) && q !in v
    ensures ParseLine(key + "=" + ([q] + v + [q] + rest)) == Some((key, v))
  {
    var quoted := [q] + v + [q];
    TrimRightConcat(quoted, rest);
    var value := quoted + TrimRight(rest);
    assert Trim(quoted + rest) == value;
    assert value[0] == q && value[1..] == v + [q] + TrimRight(rest);
    FirstOccurrence(v, q, TrimRight(rest));
    assert value[1..1 + |v|] == v;
    KeyedLine(key, quoted + rest);
  }

  /**
   An unquoted value comes back exactly when it is trimmed, does not start with a quote, and
   has no '#' after a blank.
   */
  lemma {:induction false} UnquotedRoundTripsExactlyWhen(key: string, v: string)
    requires PlainKey(key)
    ensures ParseLine(key + "=" + v) == Some((key, v))
      <==> Trim(v) == v && !(v != "" && IsQuote(v[0])) && !HasComment(v)
  {
    KeyedLine(key, v);
    TrimShortens(v);
    var value := Trim(v);
    if value != "" && IsQuote(value[0]) {
      assert |ParseValue(value)| < |value|;
    } else if HasComment(value) {
      TrimShortens(value[..IndexOfBlank(value)]);
      assert |ParseValue(value)| < |value|;
    }
  }

  // ------------------------------------------------------------ blanks and comments

  /** A piece of text without blanks that is no comment and not quoted. */
  predicate Word(v: string) {
    v != "" && (forall i :: 0 <= i < |v| ==> !IsSpace(v[i])) && v[0] != '"' && v[0] != '\'' && v[0] != '#'
  }

  lemma {:induction false} FirstBlank(v: string, b: char, rest: string)
    requires (forall i :: 0 <= i < |v| ==> v[i] != ' ' && v[i] != '\t') && (b == ' ' || b == '\t')
    ensures IndexOfBlank(v + [b] + rest) == |v|
  {
    if v != "" {
      FirstBlank(v[1..], b, rest);
      assert (v + [b] + rest)[1..] == v[1..] + [b] + rest;
    }
  }

  lemma {:induction false} NoBlank(v: string)
    requires forall i :: 0 <= i < |v| ==> v[i] != ' ' && v[i] != '\t'
    ensures IndexOfBlank(v) == -1
  {
    if v != "" { NoBlank(v[1..]); }
  }

  lemma {:induction false} TrimWord(v: string)
    requires Word(v)
    ensures Trim(v) == v && !HasComment(v) && !IsQuote(v[0])
  {
    NoBlank(v);
  }

  lemma {:induction false} TrimLeftBlank(b: char, s: string)
    requires b == ' ' || b == '\t'
    ensures TrimLeft([b] + s) == TrimLeft(s)
  {
    assert ([b] + s)[1..] == s;
  }

  lemma {:induction false} TrimLeadingBlank(b: char, s: string)
    requires b == ' ' || b == '\t'
    ensures Trim([b] + s) == Trim(s)
  {
    if TrimRight(s) == "" {
      AllBlank(s);
      TrimRightBlank(b, s);
    } else {
      TrimRightTail([b], s);
      TrimLeftBlank(b, TrimRight(s));
    }
  }

  lemma {:induction false} AllBlank(s: string)
    requires TrimRight(s) == ""
    ensures forall i :: 0 <= i < |s| ==> IsSpace(s[i])
  {
    if s != "" { AllBlank(s[..|s| - 1]); }
  }

  lemma {:induction false} TrimRightBlank(b: char, s: string)
    requires IsSpace(b) && forall i :: 0 <= i < |s| ==> IsSpace(s[i])
    ensures TrimRight([b] + s) == ""
  {
    if s == "" {
      assert [b] + s == [b] && [b][..0] == "";
    } else {
      TrimRightBlank(b, s[..|s| - 1]);
      assert ([b] + s)[..|s|] == [b] + s[..|s| - 1];
    }
  }

  /** Trimming stops inside the tail if anything of it is left. */
  lemma {:induction false} TrimRightTail(a: string, s: string)
    requires TrimRight(s) != ""
    ensures TrimRight(a + s) == a + TrimRight(s)
  {
    if s != "" && IsSpace(s[|s| - 1]) {
      TrimRightTail(a, s[..|s| - 1]);
      assert (a + s)[..|a + s| - 1] == a + s[..|s| - 1];
    }
  }

  lemma {:induction false} HashStays(s: string)
    requires '#' in s
    ensures '#' in TrimRight(s)
  {
    if IsSpace(s[|s| - 1]) {
      assert s == s[..|s| - 1] + [s[|s| - 1]];
      HashStays(s[..|s| - 1]);
    }
  }

  lemma {:induction false} TrimOfComment(v: string, b: char, rest: string)
    requires Word(v) && '#' in rest
    ensures Trim(v + [b] + rest) == v + [b] + TrimRight(rest)
  {
    HashStays(rest);
    TrimRightTail(v + [b], rest);
    assert (v + [b] + TrimRight(rest))[0] == v[0];
  }

  lemma {:induction false} CommentedValue(v: string, b: char, rest: string)
    requires Word(v) && (b == ' ' || b == '\t') && '#' in rest
    ensures ParseValue(v + [b] + rest) == v
  {
    var value := v + [b] + rest;
    FirstBlank(v, b, rest);
    assert value[0] == v[0] && value[|v|..] == [b] + rest && value[..|v|] == v;
    TrimWord(v);
  }

  /**
   An unquoted value with a '#' anywhere behind its first blank is cut at that blank: the comment goes,
   as in `KEY=value # note`, and so do all further words of the value.
   */
  lemma {:induction false} CommentCutsAtFirstBlank(key: string, v: string, b: char, rest: string)
    requires PlainKey(key) && Word(v) && (b == ' ' || b == '\t') && '#' in rest
    ensures ParseLine(key + "=" + (v + [b] + rest)) == Some((key, v))
  {
    KeyedLine(key, v + [b] + rest);
    TrimOfComment(v, b, rest);
    HashStays(rest);
    CommentedValue(v, b, TrimRight(rest));
  }

  /** A quote that is never closed is dropped, and the rest of the line is the value. */
  lemma {:induction false} UnclosedQuoteIsDropped(key: string, v: string, q: char)
    requires PlainKey(key) && IsQuote(q) && q !in v
    ensures ParseLine(key + "=" + ([q] + v)) == Some((key, TrimRight(v)))
  {
    KeyedLine(key, [q] + v);
    TrimRightConcat([q], v);
    var value := [q] + TrimRight(v);
    assert Trim([q] + v) == value && value[1..] == TrimRight(v);
  }

  /** A line without '=' assigns nothing. */
  lemma {:induction false} NoSignNoAssignment(text: string)
    requires '=' !in text
    ensures ParseLine(text) == None
  {
    TrimIsWithin(text);
  }

  lemma {:induction false} TrimIsWithin(s: string)
    ensures forall c :: c in Trim(s) ==> c in s
  {
    TrimLeftWithin(TrimRight(s));
  }

  lemma {:induction false} TrimLeftWithin(s: string)
    ensures forall c :: c in TrimLeft(s) ==> c in s
  {
    if s != "" && IsSpace(s[0]) { TrimLeftWithin(s[1..]); }
  }

  lemma {:induction false} SplitLine(text: string, left: string, right: string)
    requires Trim(text) == left + "=" + right && left != "" && left[0] != '#' && '=' !in left
    ensures ParseLine(text) == Some((Trim(left), ParseValue(Trim(right))))
  {
    var line := left + "=" + right;
    FirstEquals(left, right);
    assert line[0] == left[0] && line[..|left|] == left && line[|left| + 1..] == right;
  }

  /** Blanks at both ends go. */
  lemma {:induction false} TrimBlanks(b: char, s: string, b': char)
    requires (b == ' ' || b == '\t') && (b' == ' ' || b' == '\t')
    requires s != "" && !IsSpace(s[0]) && !IsSpace(s[|s| - 1])
    ensures Trim([b] + s + [b']) == s
  {
    TrimLeadingBlank(b, s + [b']);
    assert [b] + (s + [b']) == [b] + s + [b'];
    var ended := s + [b'];
    assert IsSpace(b') && ended[|ended| - 1] == b' && ended[..|ended| - 1] == s;
    assert TrimRight(ended) == TrimRight(s) == s;
  }

  lemma {:induction false} PlainKeyEnds(key: string)
    requires PlainKey(key)
    ensures !IsSpace(key[0]) && TrimRight(key) == key
  {
    TrimShortens(TrimRight(key));
    assert |Trim(key)| <= |TrimRight(key)|;
  }

  /** `KEY = value`: blanks around the sign and the line do not count. */
  lemma {:induction false} BlanksAroundAreDropped(key: string, v: string, b: char, b': char)
    requires PlainKey(key) && Word(v) && (b == ' ' || b == '\t') && (b' == ' ' || b' == '\t')
    ensures ParseLine([b] + (key + [b'] + "=" + ([b] + v)) + [b']) == Some((key, v))
  {
    var line := key + [b'] + "=" + ([b] + v);
    PlainKeyEnds(key);
    assert line[0] == key[0] && line[|line| - 1] == v[|v| - 1];
    TrimBlanks(b, line, b');
    SplitLine([b] + line + [b'], key + [b'], [b] + v);
    assert (key + [b'])[..|key|] == key;
    TrimLeadingBlank(b, v);
    TrimWord(v);
  }

  /** A line whose first character behind its blanks is '#' assigns nothing, and neither does one with blanks alone. */
  lemma {:induction false} CommentsAssignNothing(b: char, text: string)
    requires b == ' ' || b == '\t'
    ensures ParseLine("#" + text) == None && ParseLine([b] + "#" + text) == None
    ensures ParseLine("") == None && ParseLine([b]) == None
  {
    TrimRightConcat("#", text);
    TrimLeadingBlank(b, "#" + text);
    assert [b] + ("#" + text) == [b] + "#" + text;
    TrimLeadingBlank(b, "");
    assert [b] + "" == [b];
  }

  // ------------------------------------------------------------ the fold

  type Env = map<string, string>

  type Entry = Option<(string, string)>

  /** os.Setenv rejects empty names and NULs; loadDotEnv ignores the error. */
  predicate Settable(key: string, value: string) {
    key != "" && '=' !in key && '\0' !in key && '\0' !in value
  }

  /** The entry assigns `key`, unless the variable is there already. */
  predicate Assigns(e: Entry, key: string) {
    e.Some? && e.value.0 == key && Settable(key, e.value.1)
  }

  function LoadEntry(env: Env, e: Entry): Env {
    match e
    case None => env
    case Some((key, value)) => if key !in env && Settable(key, value) then env[key := value] else env
  }

  function Load(env: Env, entries: seq<Entry>): Env {
    if entries == [] then env else LoadEntry(Load(env, entries[..|entries| - 1]), entries[|entries| - 1])
  }

  function ParseAll(lines: seq<string>): (entries: seq<Entry>)
    ensures |entries| == |lines|
  {
    if lines == [] then [] else ParseAll(lines[..|lines| - 1]) + [ParseLine(lines[|lines| - 1])]
  }

  /** The right-hand side of an assignment, as the loop body treats it. */
  method ReadValue(text: string) returns (value: string)
    ensures value == ParseValue(Trim(text))
  {
    value := Trim(text);
    if value != "" && IsQuote(value[0]) {
      var end := IndexOf(value[1..], value[0]);
      value := if end >= 0 then value[1..1 + end] else value[1..];
    } else {
      var i := IndexOfBlank(value);
      if i >= 0 {
        if '#' in value[i..] {
          value := Trim(value[..i]);
        }
      }
    }
  }

  class Process {
    var env: Env

    constructor (env: Env)
      ensures this.env == env
    {
      this.env := env;
    }

    method LoadDotEnv(lines: seq<string>)
      modifies this
      ensures env == Load(old(env), ParseAll(lines))
    {
      for n := 0 to |lines|
        invariant env == Load(old(env), ParseAll(lines[..n]))
      {
        assert lines[..n + 1][..n] == lines[..n];
        LoadLine(lines[n]);
      }
      assert lines[..|lines|] == lines;
    }

    /** One iteration of the loop. */
    method LoadLine(text: string)
      modifies this
      ensures env == LoadEntry(old(env), ParseLine(text))
    {
      var line := Trim(text);
      if line == "" || line[0] == '#' {
        return;
      }
      var eq := IndexOf(line, '=');
      if eq < 0 {
        return;
      }
      var key := Trim(line[..eq]);
      var value := ReadValue(line[eq + 1..]);
      if key !in env && Settable(key, value) {
        env := env[key := value];
      }
    }
  }

  /**
   What an assignment does to the environment: it sets a variable that is not there, unless
   os.Setenv rejects its name or value.
   */
  lemma {:induction false} AssignmentSets(env: Env, key: string, value: string)
    ensures LoadEntry(env, Some((key, value)))
      == if key in env || key == "" || '=' in key || '\0' in key || '\0' in value then env else env[key := value]
  {}

  /** The characters that trimming removes are those with the Unicode property White_Space. */
  lemma {:induction false} SpacesAreWhiteSpace(c: char)
    ensures Trim([c]) == "" <==> c in {
      '\U{0009}', '\U{000A}', '\U{000B}', '\U{000C}', '\U{000D}', '\U{0020}', '\U{0085}', '\U{00A0}', '\U{1680}',
      '\U{2000}', '\U{2001}', '\U{2002}', '\U{2003}', '\U{2004}', '\U{2005}', '\U{2006}', '\U{2007}', '\U{2008}',
      '\U{2009}', '\U{200A}', '\U{2028}', '\U{2029}', '\U{202F}', '\U{205F}', '\U{3000}'}
  {
    assert [c][..0] == "";
  }

  /** Entry i is the first to assign `key`. */
  ghost predicate FirstAssigns(entries: seq<Entry>, key: string, i: int) {
    0 <= i < |entries| && Assigns(entries[i], key) && forall j :: 0 <= j < i ==> !Assigns(entries[j], key)
  }

  ghost predicate NoneAssigns(entries: seq<Entry>, key: string) {
    forall j :: 0 <= j < |entries| ==> !Assigns(entries[j], key)
  }

  /**
   Loading a file leaves existing variables alone, and gives every other variable the value of
   the first line that assigns it, if there is one.
   */
  lemma {:induction false} LoadExactly(env: Env, entries: seq<Entry>, key: string)
    ensures key in env ==> key in Load(env, entries) && Load(env, entries)[key] == env[key]
    ensures key !in env && NoneAssigns(entries, key) ==> key !in Load(env, entries)
    ensures forall i :: key !in env && FirstAssigns(entries, key, i) ==>
      key in Load(env, entries) && Load(env, entries)[key] == entries[i].value.1
  {
    if entries != [] {
      var n := |entries| - 1;
      var init := entries[..n];
      LoadExactly(env, init, key);
      forall i | key !in env && FirstAssigns(entries, key, i)
        ensures key in Load(env, entries) && Load(env, entries)[key] == entries[i].value.1
      {
        if i < n {
          assert FirstAssigns(init, key, i);
        } else {
          assert NoneAssigns(init, key);
        }
      }
    }
  }

  lemma {:induction false} SettledByEntry(env: Env, entries: seq<Entry>, i: int)
    requires 0 <= i < |entries|
    ensures LoadEntry(Load(env, entries), entries[i]) == Load(env, entries)
  {
    var n := |entries| - 1;
    if i < n {
      SettledByEntry(env, entries[..n], i);
    }
  }

  lemma {:induction false} SettledByPrefix(env: Env, entries: seq<Entry>, k: nat)
    requires k <= |entries|
    ensures Load(Load(env, entries), entries[..k]) == Load(env, entries)
  {
    if k > 0 {
      SettledByPrefix(env, entries, k - 1);
      SettledByEntry(env, entries, k - 1);
      assert entries[..k][..k - 1] == entries[..k - 1];
    }
  }

  /** Loading the same file twice is loading it once. */
  lemma {:induction false} LoadTwiceIsOnce(env: Env, entries: seq<Entry>)
    ensures Load(Load(env, entries), entries) == Load(env, entries)
  {
    SettledByPrefix(env, entries, |entries|);
    assert entries[..|entries|] == entries;
  }
}
