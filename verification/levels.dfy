/** Log severities in zap's order and the parsing of a configured level
    name. */
module Levels {

  /** zapcore's levels, from least to most severe. */
  datatype Level = Debug | Info | Warn | Error | DPanic | Panic | Fatal

  /** zapcore's numeric value of a level; the order of levels is the order
      of these numbers. */
  function Rank(l: Level): int {
    match l
    case Debug => -1
    case Info => 0
    case Warn => 1
    case Error => 2
    case DPanic => 3
    case Panic => 4
    case Fatal => 5
  }

  /** `a < b` in zapcore's order. */
  predicate Below(a: Level, b: Level) {
    Rank(a) < Rank(b)
  }

  /** The lower-case name zapcore prints for a level. */
  function Name(l: Level): string {
    match l
    case Debug => "debug"
    case Info => "info"
    case Warn => "warn"
    case Error => "error"
    case DPanic => "dpanic"
    case Panic => "panic"
    case Fatal => "fatal"
  }

  predicate IsUpper(c: char) {
    'A' <= c <= 'Z'
  }

  /** Lower-casing of one character: A-Z map to a-z, everything else is
      kept. */
  function LowerChar(c: char): (r: char)
    ensures !IsUpper(r)
    ensures !IsUpper(c) ==> r == c
  {
    if IsUpper(c) then (c as int + 32) as char else c
  }

  /** Lower-casing of a string, character by character. */
  function ToLower(s: string): (r: string)
    ensures |r| == |s|
  {
    if s == [] then [] else [LowerChar(s[0])] + ToLower(s[1..])
  }

  /** Each character of the lower-cased string is the lower-cased
      character at the same position. */
  lemma {:induction false} ToLowerChars(s: string)
    ensures forall i :: 0 <= i < |s| ==> ToLower(s)[i] == LowerChar(s[i])
  {
    if s != [] {
      ToLowerChars(s[1..]);
      forall i | 1 <= i < |s| ensures ToLower(s)[i] == LowerChar(s[i]) {
        assert ToLower(s)[i] == ToLower(s[1..])[i - 1];
        assert s[1..][i - 1] == s[i];
      }
    }
  }

  /** Lower-casing leaves a string without capitals unchanged. */
  lemma {:induction false} ToLowerFixesLower(s: string)
    requires forall i :: 0 <= i < |s| ==> !IsUpper(s[i])
    ensures ToLower(s) == s
  {
    if s != [] {
      assert forall i :: 0 <= i < |s[1..]| ==> !IsUpper(s[1..][i]) by {
        forall i | 0 <= i < |s[1..]| ensures !IsUpper(s[1..][i]) {
          assert s[1..][i] == s[i + 1];
        }
      }
      ToLowerFixesLower(s[1..]);
      assert s == [s[0]] + s[1..];
    }
  }

  /** The result of lower-casing has no capitals. */
  lemma {:induction false} ToLowerHasNoUpper(s: string)
    ensures forall i :: 0 <= i < |ToLower(s)| ==> !IsUpper(ToLower(s)[i])
  {
    if s != [] {
      ToLowerHasNoUpper(s[1..]);
      var r := ToLower(s);
      assert r == [LowerChar(s[0])] + ToLower(s[1..]);
      forall i | 0 <= i < |r| ensures !IsUpper(r[i]) {
        if i > 0 {
          assert r[i] == ToLower(s[1..])[i - 1];
        }
      }
    }
  }

  /** Lower-casing twice is lower-casing once. */
  lemma {:induction false} ToLowerIdempotent(s: string)
    ensures ToLower(ToLower(s)) == ToLower(s)
  {
    ToLowerHasNoUpper(s);
    ToLowerFixesLower(ToLower(s));
  }

  /** `getLevel`: the level a configured name selects. The seven names are
      recognised whatever their case; anything else selects Info. */
  function GetLevel(s: string): (lv: Level)
    ensures forall l :: ToLower(s) == Name(l) ==> lv == l
    ensures lv != Info ==> ToLower(s) == Name(lv)
  {
    var n := ToLower(s);
    if n == "debug" then Debug
    else if n == "info" then Info
    else if n == "warn" then Warn
    else if n == "error" then Error
    else if n == "dpanic" then DPanic
    else if n == "panic" then Panic
    else if n == "fatal" then Fatal
    else Info
  }

  /** `getLevel` ignores case. */
  lemma GetLevelCaseInsensitive(s: string)
    ensures GetLevel(s) == GetLevel(ToLower(s))
  {
    ToLowerIdempotent(s);
  }

  /** Every level's printed name parses back to that level. */
  lemma GetLevelName(l: Level)
    ensures GetLevel(Name(l)) == l
  {
    var n := Name(l);
    assert forall i :: 0 <= i < |n| ==> !IsUpper(n[i]) by {
      match l
      case Debug => {} case Info => {} case Warn => {} case Error => {}
      case DPanic => {} case Panic => {} case Fatal => {}
    }
    ToLowerFixesLower(n);
  }

  /** A level is chosen by its own name only; every other string falls
      back to Info. */
  lemma GetLevelIff(s: string, l: Level)
    requires l != Info
    ensures GetLevel(s) == l <==> ToLower(s) == Name(l)
  {
  }
}
