/** Shared vocabulary of the catalogue model: Java's null as `Option`, the unchecked
    exceptions the code throws as `Failure`, a value-or-exception `Result`, a
    pass-or-throw `Outcome` for validators that return nothing, and the few
    `java.lang.String` operations the rules depend on. */
module Common {

  /** A Java reference that may be null. */
  datatype Option<+T> = None | Some(value: T)

  /** The exception classes the catalogue code throws or lets escape. */
  datatype ErrorKind =
    | IllegalArgument   // java.lang.IllegalArgumentException
    | IllegalState      // java.lang.IllegalStateException
    | NoSuchElement     // java.util.NoSuchElementException
    | Runtime           // any other unchecked exception (a null dereference, a failed JDBC update, ...)

  /** A thrown exception: its class and its message. */
  datatype Failure = Failure(kind: ErrorKind, message: string)

  /** The value a Java method returns, or the exception it throws. */
  datatype Result<+T> = Ok(value: T) | Err(error: Failure) {
    predicate IsFailure() { Err? }
    function PropagateFailure<U>(): Result<U> requires Err? { Err(error) }
    function Extract(): T requires Ok? { value }
  }

  /** What a `void` validator does: returns normally, or throws. */
  datatype Outcome = Pass | Fail(error: Failure) {
    predicate IsFailure() { Fail? }
    function PropagateFailure(): Outcome requires Fail? { this }
  }

  /** Timestamp stored in `dtcreate`/`dtupdate`; the clock that produces it is a parameter. */
  datatype Timestamp = Timestamp(instant: int)

  /** The case folding `String.equalsIgnoreCase` applies wherever an ASCII letter can be
      involved: a lower-case ASCII letter folds to its capital, dotless i (U+0131) and long s
      (U+017F) upper-case to I and S, and capital I with dot (U+0130) and the Kelvin sign
      (U+212A) lower-case to i and k. Every other character folds to itself. */
  function FoldCase(c: char): char {
    if 'a' <= c <= 'z' then (c as int - 32) as char
    else if c == '\U{0131}' || c == '\U{0130}' then 'I'
    else if c == '\U{017F}' then 'S'
    else if c == '\U{212A}' then 'K'
    else c
  }

  /** `String.equalsIgnoreCase`: same length, and every pair of characters folds alike. */
  predicate EqualsIgnoreCase(a: string, b: string) {
    |a| == |b| && forall i :: 0 <= i < |a| ==> FoldCase(a[i]) == FoldCase(b[i])
  }

  /** `Boolean.parseBoolean` / `Boolean.valueOf(String)`: true exactly for a non-null "true" in any case. */
  predicate ParseBoolean(s: Option<string>) {
    s.Some? && EqualsIgnoreCase(s.value, "true")
  }

  /** `Boolean.toString`. */
  function BooleanToString(b: bool): string {
    if b then "true" else "false"
  }

  /** `String.join(sep, parts)`. */
  function Join(sep: string, parts: seq<string>): string
    decreases |parts|
  {
    if |parts| == 0 then ""
    else if |parts| == 1 then parts[0]
    else parts[0] + sep + Join(sep, parts[1..])
  }

  /** Splits `s` at every occurrence of `c`, keeping empty pieces; the inverse of `Join([c], ·)`. */
  function Split(s: string, c: char): (r: seq<string>)
    ensures |r| >= 1
    decreases |s|
  {
    if |s| == 0 then [""]
    else if s[0] == c then [""] + Split(s[1..], c)
    else
      var rest := Split(s[1..], c);
      [[s[0]] + rest[0]] + rest[1..]
  }

  /** A piece without the separator splits to itself. */
  lemma {:induction false} SplitNoSeparator(p: string, c: char)
    requires c !in p
    ensures Split(p, c) == [p]
    decreases |p|
  {
    if |p| > 0 {
      assert p[0] in p;
      assert forall k :: 0 <= k < |p[1..]| ==> p[1..][k] == p[k + 1];
      SplitNoSeparator(p[1..], c);
      assert [p[0]] + p[1..] == p;
    }
  }

  /** Splitting `p + [c] + rest` yields `p` followed by the pieces of `rest`. */
  lemma {:induction false} SplitAtSeparator(p: string, c: char, rest: string)
    requires c !in p
    ensures Split(p + [c] + rest, c) == [p] + Split(rest, c)
    decreases |p|
  {
    var s := p + [c] + rest;
    if |p| == 0 {
      assert s == [c] + rest;
      assert s[1..] == rest;
    } else {
      assert p[0] in p;
      assert s[0] == p[0];
      assert s[1..] == p[1..] + [c] + rest;
      assert forall k :: 0 <= k < |p[1..]| ==> p[1..][k] == p[k + 1];
      SplitAtSeparator(p[1..], c, rest);
      assert [p[0]] + p[1..] == p;
    }
  }

  /** Round trip: when no piece contains the separator, splitting the joined string
      gives back every piece, in order. */
  lemma {:induction false} SplitJoin(parts: seq<string>, c: char)
    requires |parts| >= 1
    requires forall i :: 0 <= i < |parts| ==> c !in parts[i]
    ensures Split(Join([c], parts), c) == parts
    decreases |parts|
  {
    if |parts| == 1 {
      SplitNoSeparator(parts[0], c);
    } else {
      assert c !in parts[0];
      SplitJoin(parts[1..], c);
      SplitAtSeparator(parts[0], c, Join([c], parts[1..]));
      assert [parts[0]] + parts[1..] == parts;
    }
  }
}
