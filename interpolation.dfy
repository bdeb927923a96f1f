/** The string building the release handles rely on: Rust's `format!` with
    `{}` placeholders, and the decimal `Display` of a `u64` identifier. */
module Interpolation {

  /** Rust's `u64`: release and asset identifiers. */
  type U64 = n: nat | n < 0x1_0000_0000_0000_0000

  // ---------------------------------------------------------------------------
  // format!
  // ---------------------------------------------------------------------------

  /** True when the template starts with the placeholder `{}`. */
  predicate StartsWithHole(t: string)
  {
    |t| >= 2 && t[0] == '{' && t[1] == '}'
  }

  /** Number of `{}` placeholders in a template, scanned left to right. */
  function Holes(t: string): (k: nat)
    ensures 2 * k <= |t|
    decreases |t|
  {
    if |t| == 0 then 0
    else if StartsWithHole(t) then 1 + Holes(t[2..])
    else Holes(t[1..])
  }

  /** Sum of the lengths of the arguments. */
  function TotalLength(args: seq<string>): nat
  {
    if args == [] then 0 else |args[0]| + TotalLength(args[1..])
  }

  /** `format!(t, args...)`: every `{}` of the template is replaced, in order,
      by the next argument, which is copied verbatim (no escaping); every other
      character of the template is copied. Rust refuses at compile time a call
      whose argument count differs from the placeholder count. */
  function Format(t: string, args: seq<string>): (r: string)
    requires Holes(t) == |args|
    ensures |r| == |t| - 2 * Holes(t) + TotalLength(args)
    decreases |t|
  {
    if |t| == 0 then ""
    else if StartsWithHole(t) then args[0] + Format(t[2..], args[1..])
    else [t[0]] + Format(t[1..], args)
  }

  lemma AppendAssoc(a: string, b: string, c: string)
    ensures a + (b + c) == a + b + c
  {
  }

  lemma AppendEmpty(a: string)
    ensures a + "" == a
  {
  }

  /** The template whose literal pieces are `lits`, separated by `{}`. */
  function Template(lits: seq<string>): string
    requires |lits| >= 1
  {
    if |lits| == 1 then lits[0] else lits[0] + "{}" + Template(lits[1..])
  }

  /** The literal pieces with the arguments placed between them. */
  function Interleave(lits: seq<string>, args: seq<string>): string
    requires |lits| == |args| + 1
  {
    if |args| == 0 then lits[0] else lits[0] + args[0] + Interleave(lits[1..], args[1..])
  }

  /** A literal piece that holds no `{` passes through `format!` unchanged and
      contributes no placeholder. */
  lemma {:induction false} FormatLiteralPrefix(lit: string, rest: string, args: seq<string>)
    requires '{' !in lit
    ensures Holes(lit + rest) == Holes(rest)
    ensures Holes(rest) == |args| ==> Format(lit + rest, args) == lit + Format(rest, args)
    decreases |lit|
  {
    if |lit| > 0 {
      var t := lit + rest;
      assert t[0] == lit[0] && !StartsWithHole(t);
      assert t[1..] == lit[1..] + rest;
      FormatLiteralPrefix(lit[1..], rest, args);
    } else {
      assert lit + rest == rest;
    }
  }

  /** `format!` on a template made of brace-free pieces and `{}` is direct
      interpolation of the arguments between the pieces. */
  lemma {:induction false} FormatIsInterpolation(lits: seq<string>, args: seq<string>)
    requires |lits| == |args| + 1
    requires forall i :: 0 <= i < |lits| ==> '{' !in lits[i]
    ensures Holes(Template(lits)) == |args|
    ensures Format(Template(lits), args) == Interleave(lits, args)
    decreases |args|
  {
    if |args| == 0 {
      FormatLiteralPrefix(lits[0], "", args);
      assert lits[0] + "" == lits[0];
    } else {
      var tail := Template(lits[1..]);
      FormatIsInterpolation(lits[1..], args[1..]);
      var hole := "{}" + tail;
      assert StartsWithHole(hole) && hole[2..] == tail;
      FormatLiteralPrefix(lits[0], hole, args);
      assert Template(lits) == lits[0] + hole;
    }
  }

  // ---------------------------------------------------------------------------
  // Display for u64
  // ---------------------------------------------------------------------------

  /** The character of a decimal digit. */
  function Digit(d: nat): (c: char)
    requires d < 10
    ensures '0' <= c <= '9'
    ensures c as int - '0' as int == d
  {
    ('0' as int + d) as char
  }

  predicate IsDigits(s: string)
  {
    forall i :: 0 <= i < |s| ==> '0' <= s[i] <= '9'
  }

  /** The decimal rendering of `n` as `{}` prints an unsigned integer: at least
      one digit, only digits, and no leading zero except for `0` itself. */
  function Dec(n: nat): (s: string)
    ensures |s| >= 1 && IsDigits(s)
    ensures s[0] == '0' ==> n == 0
    decreases n
  {
    if n < 10 then [Digit(n)] else Dec(n / 10) + [Digit(n % 10)]
  }

  /** The value of a string of decimal digits, most significant first. */
  function ParseDec(s: string): nat
    requires IsDigits(s)
    decreases |s|
  {
    if |s| == 0 then 0 else 10 * ParseDec(s[..|s| - 1]) + (s[|s| - 1] as int - '0' as int)
  }

  /** Reading the rendering back gives the number: `Dec` loses nothing. */
  lemma {:induction false} ParseDecOfDec(n: nat)
    ensures ParseDec(Dec(n)) == n
    decreases n
  {
    if n >= 10 {
      var s := Dec(n);
      assert s[..|s| - 1] == Dec(n / 10);
      ParseDecOfDec(n / 10);
    }
  }

  /** Distinct numbers render differently. */
  lemma DecInjective(m: nat, n: nat)
    requires Dec(m) == Dec(n)
    ensures m == n
  {
    ParseDecOfDec(m);
    ParseDecOfDec(n);
  }
}
