/**
  The parts of the Python runtime that the adapter relies on: decoded JSON
  values and their truthiness, the exceptions the adapter can raise, and the
  three `str` methods it calls (`lstrip`, `split`, `capitalize`).
 */
module Python {

  datatype Option<+T> = None | Some(value: T) {
    function GetOr(default: T): T {
      match this
      case Some(v) => v
      case None => default
    }
  }

  /** A value as `json.loads` produces it; `VNull` is also what `dict.get` returns for a missing key. */
  datatype Value =
    | VNull
    | VBool(b: bool)
    | VInt(i: int)
    | VFloat(f: real)
    | VStr(s: string)
    | VList(items: seq<Value>)
    | VDict(entries: map<string, Value>)

  /** The exceptions the adapter lets escape. */
  datatype Error =
    | KeyError(key: Value)   // a dict lookup `d[k]` with `k` absent
    | TypeError              // a dict lookup with an unhashable key (a list or a dict)
    | IndexError             // `xs[1]` on a list with fewer than two elements
    | AttributeError         // `.get` called on a decoded value that is not a dict

  datatype Result<+T> = Ok(value: T) | Err(error: Error)

  /** Python's `bool(v)` for the values above. */
  predicate Truthy(v: Value) {
    match v
    case VNull => false
    case VBool(b) => b
    case VInt(i) => i != 0
    case VFloat(f) => f != 0.0
    case VStr(s) => s != ""
    case VList(items) => items != []
    case VDict(entries) => entries != map[]
  }

  /** Lists and dicts cannot be dict keys. */
  predicate Hashable(v: Value) {
    !v.VList? && !v.VDict?
  }

  /** Looks `key` up in a dict whose keys are strings, as `d[key]` does. */
  function Lookup(d: map<string, string>, key: Value): (r: Result<string>)
    ensures r.Ok? <==> key.VStr? && key.s in d
    ensures r.Ok? ==> r.value == d[key.s]
    ensures r.Err? ==> r.error == (if Hashable(key) then KeyError(key) else TypeError)
  {
    if !Hashable(key) then Err(TypeError)
    else if key.VStr? && key.s in d then Ok(d[key.s])
    else Err(KeyError(key))
  }

  /**
    `s.lstrip(chars)`: drops the longest prefix made only of characters in
    `chars`. It removes a character SET, not a literal prefix.
   */
  function LStrip(s: string, chars: set<char>): string {
    if s != [] && s[0] in chars then LStrip(s[1..], chars) else s
  }

  /** What `LStrip` leaves is a suffix of its input that does not start with a stripped character, and all it removed is stripped characters. */
  lemma {:induction false} LStripRemovesLongestRun(s: string, chars: set<char>)
    ensures var r := LStrip(s, chars);
      && |r| <= |s| && r == s[|s| - |r|..]
      && (forall i :: 0 <= i < |s| - |r| ==> s[i] in chars)
      && (r == [] || r[0] !in chars)
  {
    if s != [] && s[0] in chars {
      var t, r := s[1..], LStrip(s, chars);
      assert r == LStrip(t, chars);
      LStripRemovesLongestRun(t, chars);
      assert s[|s| - |r|..] == t[|t| - |r|..];
      forall i | 0 <= i < |s| - |r|
        ensures s[i] in chars
      {
        if i > 0 {
          assert s[i] == t[i - 1];
        }
      }
    }
  }

  /** Joins fields with one separator between each pair, the inverse of `Split`. */
  function Join(fields: seq<string>, sep: char): string
    requires |fields| >= 1
  {
    if |fields| == 1 then fields[0] else fields[0] + [sep] + Join(fields[1..], sep)
  }

  /**
    `s.split(sep)` with an explicit one-character separator: every occurrence
    splits, so adjacent separators give empty fields and `"".split(sep)` is `[""]`.
   */
  function Split(s: string, sep: char): (r: seq<string>)
    ensures |r| >= 1
    ensures forall i :: 0 <= i < |r| ==> sep !in r[i]
    ensures Join(r, sep) == s
  {
    if s == [] then [[]]
    else
      var rest := Split(s[1..], sep);
      if s[0] == sep then [[]] + rest
      else [[s[0]] + rest[0]] + rest[1..]
  }

  /** The number of occurrences of `c` in `s`. */
  function Count(s: string, c: char): nat {
    if s == [] then 0 else (if s[0] == c then 1 else 0) + Count(s[1..], c)
  }

  lemma {:induction false} SplitFieldCount(s: string, sep: char)
    ensures |Split(s, sep)| == Count(s, sep) + 1
  {
    if s != [] {
      SplitFieldCount(s[1..], sep);
    }
  }

  /** Splitting a joined sequence of separator-free fields gives the fields back. */
  lemma {:induction false} SplitJoin(fields: seq<string>, sep: char)
    requires |fields| >= 1
    requires forall i :: 0 <= i < |fields| ==> sep !in fields[i]
    ensures Split(Join(fields, sep), sep) == fields
  {
    if |fields| == 1 {
      SplitNoSeparator(fields[0], sep);
    } else {
      SplitJoin(fields[1..], sep);
      SplitAtFirst(fields[0], Join(fields[1..], sep), sep);
    }
  }

  lemma {:induction false} SplitNoSeparator(s: string, sep: char)
    requires sep !in s
    ensures Split(s, sep) == [s]
  {
    if s != [] {
      SplitNoSeparator(s[1..], sep);
    }
  }

  /** The text before the first separator is the first field; the rest is split on its own. */
  lemma {:induction false} SplitAtFirst(head: string, tail: string, sep: char)
    requires sep !in head
    ensures Split(head + [sep] + tail, sep) == [head] + Split(tail, sep)
  {
    if head != [] {
      assert (head + [sep] + tail)[1..] == head[1..] + [sep] + tail;
      SplitAtFirst(head[1..], tail, sep);
      assert [head[0]] + head[1..] == head;
    } else {
      assert (head + [sep] + tail)[1..] == tail;
    }
  }

  predicate IsAsciiLower(c: char) { 'a' <= c <= 'z' }
  predicate IsAsciiUpper(c: char) { 'A' <= c <= 'Z' }

  function ToUpper(c: char): char {
    if IsAsciiLower(c) then (c as int - 32) as char else c
  }

  function ToLower(c: char): char {
    if IsAsciiUpper(c) then (c as int + 32) as char else c
  }

  /** `s.capitalize()` on ASCII text: the first character upper-cased, every other one lower-cased. */
  function Capitalize(s: string): string {
    if s == [] then [] else [ToUpper(s[0])] + LowerAll(s[1..])
  }

  function LowerAll(s: string): string {
    if s == [] then [] else [ToLower(s[0])] + LowerAll(s[1..])
  }

  /** Text without capitals is unchanged by lower-casing. */
  lemma {:induction false} LowerAllFixed(s: string)
    requires forall i :: 0 <= i < |s| ==> !IsAsciiUpper(s[i])
    ensures LowerAll(s) == s
  {
    if s != [] {
      LowerAllFixed(s[1..]);
    }
  }

  /** A word that already starts with a non-lower-case letter and has no other capitals is its own capitalisation. */
  lemma CapitalizeFixed(s: string)
    requires s != [] && !IsAsciiLower(s[0])
    requires forall i :: 0 < i < |s| ==> !IsAsciiUpper(s[i])
    ensures Capitalize(s) == s
  {
    LowerAllFixed(s[1..]);
  }
}
