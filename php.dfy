/** The PHP primitives the Redis configuration relies on: its values and
    arrays, `getenv` on an environment given as a map, PHP truthiness of a
    string, `str_replace` with an empty replacement, and the `(int)` cast
    of a decimal string. */
module Php {

  /** A PHP value. An associative array is a map from its string keys (its
      insertion order is not kept); a list array, such as the result of
      `array_values`, is a sequence indexed from 0. `Const` stands for a
      class constant whose numeric value is left symbolic. */
  datatype Value =
    | Str(s: string)
    | Int(i: int)
    | Float(r: real)
    | Bool(b: bool)
    | Const(name: string)
    | Assoc(entries: map<string, Value>)
    | List(items: seq<Value>)

  type Env = map<string, string>

  /** `if (getenv(name))`: `getenv` yields `false` for an absent variable,
      and the strings `""` and `"0"` are falsy. */
  predicate IsSet(env: Env, name: string)
    ensures IsSet(env, name) ==> name in env && |env[name]| > 0
    ensures name !in env ==> !IsSet(env, name)
  {
    name in env && Truthy(env[name])
  }

  /** PHP truthiness of a string: every string but `""` and `"0"` is
      true, so a longer string is true whatever it holds (`"00"`, `"0.0"`). */
  predicate Truthy(s: string)
    ensures Truthy(s) <==> |s| > 1 || (|s| == 1 && s[0] != '0')
  {
    s != "" && s != "0"
  }

  /** `getenv(name) === value`: strict comparison, so only the exact string
      matches. */
  predicate EnvEquals(env: Env, name: string, value: string)
    ensures name !in env ==> !EnvEquals(env, name, value)
    ensures Truthy(value) ==> (EnvEquals(env, name, value) <==> IsSet(env, name) && EnvString(env, name) == value)
  {
    name in env && env[name] == value
  }

  /** The string read from a set variable, or `""` for an unset one (what
      PHP's `null` becomes when concatenated). */
  function EnvString(env: Env, name: string): (r: string)
    ensures IsSet(env, name) ==> r == env[name]
    ensures !IsSet(env, name) ==> r == ""
  {
    if IsSet(env, name) then env[name] else ""
  }

  predicate IsPrefix(p: string, s: string)
  {
    |p| <= |s| && s[..|p|] == p
  }

  predicate OccursAt(s: string, needle: string, i: int)
  {
    0 <= i <= |s| - |needle| && s[i..i + |needle|] == needle
  }

  predicate Contains(s: string, needle: string)
  {
    exists i :: 0 <= i <= |s| && OccursAt(s, needle, i)
  }

  /** `str_replace(search, "", subject)`: one left-to-right pass that drops
      every non-overlapping occurrence of `search`; an empty `search`
      leaves the subject unchanged. */
  function StrRemove(search: string, subject: string): (r: string)
    ensures |r| <= |subject|
    decreases |subject|
  {
    if |search| == 0 || |subject| < |search| then subject
    else if subject[..|search|] == search then StrRemove(search, subject[|search|..])
    else [subject[0]] + StrRemove(search, subject[1..])
  }

  /** A subject without an occurrence of `search` is returned unchanged. */
  lemma {:induction false} StrRemoveNoOccurrence(search: string, subject: string)
    requires !Contains(subject, search)
    ensures StrRemove(search, subject) == subject
    decreases |subject|
  {
    if |search| == 0 || |subject| < |search| {
    } else {
      assert !OccursAt(subject, search, 0);
      assert subject[0..|search|] == subject[..|search|];
      assert !Contains(subject[1..], search) by {
        forall i | 0 <= i <= |subject[1..]| && OccursAt(subject[1..], search, i)
          ensures false
        {
          assert subject[1..][i..i + |search|] == subject[i + 1..i + 1 + |search|];
          assert OccursAt(subject, search, i + 1);
        }
      }
      StrRemoveNoOccurrence(search, subject[1..]);
    }
  }

  /** A leading occurrence is dropped and the rest is processed alone: the
      prefix form `"&auth[]=" + user` yields `user`. */
  lemma StrRemoveLeading(search: string, rest: string)
    requires |search| > 0 && !Contains(rest, search)
    ensures StrRemove(search, search + rest) == rest
  {
    assert (search + rest)[..|search|] == search;
    assert (search + rest)[|search|..] == rest;
    StrRemoveNoOccurrence(search, rest);
  }

  /** The removal is a single pass: pieces that only meet once an
      occurrence has been dropped are not removed again. */
  lemma StrRemoveSinglePass()
    ensures StrRemove("ab", "aabb") == "ab"
  {
    assert "aabb"[..2][1] != "ab"[1];
    assert "aabb"[1..] == "abb";
    assert "abb"[..2] == "ab";
    assert "abb"[2..] == "b";
  }

  /** Occurrences are removed left to right: when none starts inside `a`,
      the first one is the `search` right after `a`, which is dropped, and
      the removal goes on in the rest. */
  lemma {:induction false} StrRemoveFirstOccurrence(search: string, a: string, rest: string)
    requires |search| > 0
    requires forall i :: 0 <= i < |a| ==> !OccursAt(a + search, search, i)
    ensures StrRemove(search, a + search + rest) == a + StrRemove(search, rest)
    decreases |a|
  {
    var s := a + search + rest;
    if a == [] {
      assert s == search + rest;
      assert s[..|search|] == search && s[|search|..] == rest;
    } else {
      assert !OccursAt(a + search, search, 0);
      assert s[..|search|] == (a + search)[..|search|];
      assert StrRemove(search, s) == [a[0]] + StrRemove(search, s[1..]);
      assert s[1..] == a[1..] + search + rest;
      NoOccurrenceInTail(search, a);
      StrRemoveFirstOccurrence(search, a[1..], rest);
      assert [a[0]] + (a[1..] + StrRemove(search, rest)) == a + StrRemove(search, rest);
    }
  }

  /** No occurrence starting inside `a` means none starting inside `a[1..]`. */
  lemma NoOccurrenceInTail(search: string, a: string)
    requires |a| > 0
    requires forall i :: 0 <= i < |a| ==> !OccursAt(a + search, search, i)
    ensures forall i :: 0 <= i < |a[1..]| ==> !OccursAt(a[1..] + search, search, i)
  {
    forall i | 0 <= i < |a[1..]|
      ensures !OccursAt(a[1..] + search, search, i)
    {
      assert (a[1..] + search)[i..i + |search|] == (a + search)[i + 1..i + 1 + |search|];
      assert !OccursAt(a + search, search, i + 1);
    }
  }

  // ---------------------------------------------------------------------
  // (int) cast
  // ---------------------------------------------------------------------

  predicate IsDigit(ch: char)
  {
    '0' <= ch <= '9'
  }

  predicate IsSpace(ch: char)
  {
    ch == ' ' || ch == '\t' || ch == '\n' || ch == '\r' || ch == '\U{000B}' || ch == '\U{000C}'
  }

  /** The value of a string of decimal digits, most significant first. */
  function DigitsValue(s: string): (r: nat)
    requires forall i :: 0 <= i < |s| ==> IsDigit(s[i])
  {
    if |s| == 0 then 0
    else DigitsValue(s[..|s| - 1]) * 10 + DigitValue(s[|s| - 1])
  }

  function DigitValue(ch: char): (d: nat)
    requires IsDigit(ch)
    ensures d < 10
  {
    ch as int - '0' as int
  }

  /** The length of the longest prefix of `s` made of decimal digits. */
  function DigitRun(s: string): (n: nat)
    ensures n <= |s|
    ensures forall i :: 0 <= i < n ==> IsDigit(s[i])
    ensures n < |s| ==> !IsDigit(s[n])
  {
    if |s| == 0 || !IsDigit(s[0]) then 0 else 1 + DigitRun(s[1..])
  }

  /** The leading decimal integer of `s` after optional white space and an
      optional sign, and 0 when there is none, as PHP's `(int)` cast reads
      a decimal string. */
  function IntCast(s: string): (r: int)
    ensures (forall i :: 0 <= i < |s| ==> IsDigit(s[i])) ==> r == DigitsValue(s)
    ensures |s| > 0 && IsDigit(s[0]) ==> r >= 0
  {
    if |s| > 0 && IsSpace(s[0]) then IntCast(s[1..])
    else if |s| > 0 && (s[0] == '-' || s[0] == '+') then
      var n := DigitRun(s[1..]);
      var v: int := DigitsValue(s[1..][..n]);
      if s[0] == '-' then -v else v
    else
      assert s[..|s|] == s;
      DigitsValue(s[..DigitRun(s)])
  }

  /** The decimal representation of `n`, without sign or leading zeros. */
  function DecimalString(n: nat): (r: string)
    ensures |r| > 0 && forall i :: 0 <= i < |r| ==> IsDigit(r[i])
  {
    if n < 10 then [('0' as int + n) as char]
    else DecimalString(n / 10) + [('0' as int + n % 10) as char]
  }

  lemma {:induction false} DigitsValueOfDecimal(n: nat)
    ensures DigitsValue(DecimalString(n)) == n
  {
    var s := DecimalString(n);
    if n >= 10 {
      assert s[..|s| - 1] == DecimalString(n / 10);
      DigitsValueOfDecimal(n / 10);
    }
  }

  /** The cast reads back every decimal string: `(int) "6379"` is 6379. */
  lemma IntCastOfDecimal(n: nat)
    ensures IntCast(DecimalString(n)) == n
  {
    DigitsValueOfDecimal(n);
  }

  /** A string with no leading digit, sign or space casts to 0:
      `(int) "abc"` is 0. */
  lemma IntCastOfNonNumeric(s: string)
    requires |s| > 0 && !IsDigit(s[0]) && !IsSpace(s[0]) && s[0] != '-' && s[0] != '+'
    ensures IntCast(s) == 0
  {
  }
}
