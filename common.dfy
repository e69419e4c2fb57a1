/** Shared vocabulary of the model: optional values, the outcome of a call into
    the hosted store, auth service or webhook, toast notices, the row written to
    the `content` table, and the few JavaScript string operations the screens use. */
module Common {

  datatype Option<T> = None | Some(value: T)

  /** What an awaited store, auth or webhook call resolved to. The model never
      performs the call; the caller of a method supplies its outcome. */
  datatype Outcome = Ok | Err(message: string)

  /** A toast shown to the user. */
  datatype Notice = Notice(title: string, description: string, destructive: bool)

  /** JavaScript's `error.message || fallback`. */
  function MessageOr(message: string, fallback: string): string
  {
    if message != "" then message else fallback
  }

  /** The toast of a failed call: `description` is the error's message, or the
      screen's fallback text when the message is empty. */
  function FailureNotice(title: string, e: Outcome, fallback: string): Notice
    requires e.Err?
  {
    Notice(title, MessageOr(e.message, fallback), true)
  }

  /** Milliseconds in the 24 hours that the schedule buttons add to "now". */
  const DayMillis: int := 24 * 60 * 60 * 1000

  /** One new row of the `content` table, as the create screens insert it. */
  datatype ContentInsert = ContentInsert(
    userId: string,
    title: string,
    body: string,
    contentType: string,
    tone: string,
    imageStyle: string,
    status: string,
    scheduledAt: Option<int>)

  // ---------------------------------------------------------------------------
  // Substring search (`String.prototype.includes`)

  predicate IsPrefix(p: string, s: string)
  {
    |p| <= |s| && s[..|p|] == p
  }

  /** `s.includes(sub)`, searched from the left one position at a time. */
  predicate Contains(s: string, sub: string)
    decreases |s|
  {
    IsPrefix(sub, s) || (|s| > 0 && Contains(s[1..], sub))
  }

  /** `sub` occurs in `s` starting at offset `i`. */
  predicate OccursAt(s: string, sub: string, i: int)
  {
    0 <= i <= |s| - |sub| && s[i..i + |sub|] == sub
  }

  /** The search agrees with the usual definition: `sub` occurs at some offset. */
  lemma {:induction false} ContainsIffOccurs(s: string, sub: string)
    ensures Contains(s, sub) <==> exists i :: OccursAt(s, sub, i)
    decreases |s|
  {
    if IsPrefix(sub, s) {
      assert OccursAt(s, sub, 0);
    } else if |s| == 0 {
    } else {
      ContainsIffOccurs(s[1..], sub);
      if Contains(s[1..], sub) {
        var i :| OccursAt(s[1..], sub, i);
        assert s[i + 1..i + 1 + |sub|] == s[1..][i..i + |sub|];
        assert OccursAt(s, sub, i + 1);
      } else {
        forall i ensures !OccursAt(s, sub, i) {
          if i > 0 { OccursShift(s, sub, i); }
        }
      }
    }
  }

  lemma OccursShift(s: string, sub: string, i: int)
    requires 0 < i && 0 < |s|
    ensures OccursAt(s, sub, i) ==> OccursAt(s[1..], sub, i - 1)
  {
    if OccursAt(s, sub, i) {
      assert s[1..][i - 1..i - 1 + |sub|] == s[i..i + |sub|];
    }
  }

  /** Every string contains each of its infixes. */
  lemma {:induction false} ContainsInfix(a: string, t: string, b: string)
    ensures Contains(a + t + b, t)
    decreases |a|
  {
    if |a| == 0 {
      assert a + t + b == t + b;
      assert (t + b)[..|t|] == t;
    } else {
      assert (a + t + b)[1..] == a[1..] + t + b;
      ContainsInfix(a[1..], t, b);
    }
  }

  // ---------------------------------------------------------------------------
  // Case mapping. `toLowerCase`/`toUpperCase` are modelled on ASCII letters.

  function LowerChar(c: char): char
  {
    if 'A' <= c <= 'Z' then (c as int + 32) as char else c
  }

  function UpperChar(c: char): char
  {
    if 'a' <= c <= 'z' then (c as int - 32) as char else c
  }

  function Lower(s: string): (r: string)
    ensures |r| == |s|
    ensures forall i :: 0 <= i < |s| ==> r[i] == LowerChar(s[i])
  {
    seq(|s|, i requires 0 <= i < |s| => LowerChar(s[i]))
  }

  // ---------------------------------------------------------------------------
  // `String.prototype.trim`: strips the ECMAScript WhiteSpace and
  // LineTerminator characters from both ends.

  predicate IsJsWhitespace(c: char)
  {
    c == '\t' || c == '\n' || c == '\U{000B}' || c == '\U{000C}' || c == '\r' || c == ' '
    || c == '\U{00A0}' || c == '\U{1680}' || ('\U{2000}' <= c <= '\U{200A}')
    || c == '\U{2028}' || c == '\U{2029}' || c == '\U{202F}' || c == '\U{205F}'
    || c == '\U{3000}' || c == '\U{FEFF}'
  }

  predicate IsBlank(s: string)
  {
    forall i :: 0 <= i < |s| ==> IsJsWhitespace(s[i])
  }

  function TrimStart(s: string): string
    decreases |s|
  {
    if |s| > 0 && IsJsWhitespace(s[0]) then TrimStart(s[1..]) else s
  }

  function TrimEnd(s: string): string
    decreases |s|
  {
    if |s| > 0 && IsJsWhitespace(s[|s| - 1]) then TrimEnd(s[..|s| - 1]) else s
  }

  function Trim(s: string): string
  {
    TrimEnd(TrimStart(s))
  }

  lemma {:induction false} TrimStartEmptyIffBlank(s: string)
    ensures TrimStart(s) == "" <==> IsBlank(s)
    decreases |s|
  {
    if |s| > 0 && IsJsWhitespace(s[0]) {
      TrimStartEmptyIffBlank(s[1..]);
      assert IsBlank(s) <==> IsBlank(s[1..]) by {
        if IsBlank(s[1..]) {
          forall i | 0 <= i < |s| ensures IsJsWhitespace(s[i]) {
            if i > 0 { assert s[i] == s[1..][i - 1]; }
          }
        }
      }
    }
  }

  lemma {:induction false} TrimEndEmptyIffBlank(s: string)
    ensures TrimEnd(s) == "" <==> IsBlank(s)
    decreases |s|
  {
    if |s| > 0 && IsJsWhitespace(s[|s| - 1]) {
      TrimEndEmptyIffBlank(s[..|s| - 1]);
      assert IsBlank(s) <==> IsBlank(s[..|s| - 1]) by {
        if IsBlank(s[..|s| - 1]) {
          forall i | 0 <= i < |s| ensures IsJsWhitespace(s[i]) {
            if i < |s| - 1 { assert s[i] == s[..|s| - 1][i]; }
          }
        }
      }
    }
  }

  lemma {:induction false} TrimStartIsSuffix(s: string)
    ensures |TrimStart(s)| <= |s| && TrimStart(s) == s[|s| - |TrimStart(s)|..]
    decreases |s|
  {
    if |s| > 0 && IsJsWhitespace(s[0]) {
      TrimStartIsSuffix(s[1..]);
    }
  }

  /** A string trims to "" exactly when every one of its characters is white space. */
  lemma TrimEmptyIffBlank(s: string)
    ensures Trim(s) == "" <==> IsBlank(s)
  {
    TrimStartEmptyIffBlank(s);
    TrimEndEmptyIffBlank(TrimStart(s));
    TrimStartIsSuffix(s);
    var t := TrimStart(s);
    if IsBlank(t) && !IsBlank(s) {
      var i :| 0 <= i < |s| && !IsJsWhitespace(s[i]);
      if i < |s| - |t| {
        // Everything before the kept suffix was stripped as white space.
        TrimStartDropsOnlyWhitespace(s, i);
      }
    }
  }

  lemma {:induction false} TrimStartDropsOnlyWhitespace(s: string, i: int)
    requires 0 <= i < |s| - |TrimStart(s)|
    ensures IsJsWhitespace(s[i])
    decreases |s|
  {
    if |s| > 0 && IsJsWhitespace(s[0]) {
      if i > 0 {
        TrimStartDropsOnlyWhitespace(s[1..], i - 1);
      }
    }
  }

  // ---------------------------------------------------------------------------
  // List operations the screens perform with `Array.prototype.filter`.

  /** `s.filter(keep)`. */
  function Filter<T>(s: seq<T>, keep: T -> bool): seq<T>
    decreases |s|
  {
    if |s| == 0 then [] else (if keep(s[0]) then [s[0]] else []) + Filter(s[1..], keep)
  }

  /** `a` is `b` with some elements left out, the rest in their original order. */
  predicate IsSubsequence<T(==)>(a: seq<T>, b: seq<T>)
    decreases |b|
  {
    |a| == 0 || (|b| > 0 && (if a[0] == b[0] then IsSubsequence(a[1..], b[1..]) else IsSubsequence(a, b[1..])))
  }

  lemma {:induction false} IsSubsequenceOfSelf<T>(s: seq<T>)
    ensures IsSubsequence(s, s)
    decreases |s|
  {
    if |s| > 0 { IsSubsequenceOfSelf(s[1..]); }
  }

  /** What `filter` keeps: exactly the elements that pass the test, in their
      original order, and nothing else. */
  lemma {:induction false} FilterKeeps<T>(s: seq<T>, keep: T -> bool)
    ensures forall x :: x in Filter(s, keep) ==> x in s && keep(x)
    ensures forall x :: x in s && keep(x) ==> x in Filter(s, keep)
    ensures IsSubsequence(Filter(s, keep), s)
    ensures |Filter(s, keep)| <= |s|
    ensures (forall i :: 0 <= i < |s| ==> keep(s[i])) ==> Filter(s, keep) == s
    ensures (forall i :: 0 <= i < |s| ==> !keep(s[i])) ==> Filter(s, keep) == []
    decreases |s|
  {
    if |s| > 0 {
      FilterKeeps(s[1..], keep);
      var rest := Filter(s[1..], keep);
      assert s == [s[0]] + s[1..];
      if keep(s[0]) {
        assert Filter(s, keep) == [s[0]] + rest;
        assert ([s[0]] + rest)[1..] == rest;
      } else {
        assert Filter(s, keep) == rest;
        NotFirstSubsequence(rest, s, keep);
      }
      assert forall i :: 0 <= i < |s[1..]| ==> s[1..][i] == s[i + 1];
      if forall i :: 0 <= i < |s| ==> keep(s[i]) {
        assert forall i :: 0 <= i < |s[1..]| ==> keep(s[1..][i]);
      }
      if forall i :: 0 <= i < |s| ==> !keep(s[i]) {
        assert forall i :: 0 <= i < |s[1..]| ==> !keep(s[1..][i]);
      }
    }
  }

  lemma NotFirstSubsequence<T>(rest: seq<T>, s: seq<T>, keep: T -> bool)
    requires |s| > 0 && !keep(s[0]) && rest == Filter(s[1..], keep)
    requires IsSubsequence(rest, s[1..])
    requires forall x :: x in rest ==> keep(x)
    ensures IsSubsequence(rest, s)
  {
    if |rest| > 0 {
      assert keep(rest[0]);
      assert rest[0] != s[0];
    }
  }

  /** `s.filter((_, j) => j !== i)`: every element except the one at index `i`. */
  function Without<T>(s: seq<T>, i: int): seq<T>
    decreases |s|
  {
    if |s| == 0 then [] else (if i == 0 then [] else [s[0]]) + Without(s[1..], i - 1)
  }

  /** Dropping index `i` removes exactly that element when `i` is an index of
      `s`, and changes nothing otherwise. */
  lemma {:induction false} WithoutIsRemoval<T>(s: seq<T>, i: int)
    ensures 0 <= i < |s| ==> Without(s, i) == s[..i] + s[i + 1..]
    ensures !(0 <= i < |s|) ==> Without(s, i) == s
    decreases |s|
  {
    if |s| > 0 {
      WithoutIsRemoval(s[1..], i - 1);
      if i == 0 {
        assert s[..0] + s[1..] == s[1..];
      } else if 0 < i < |s| {
        assert [s[0]] + (s[1..][..i - 1] + s[1..][i..]) == s[..i] + s[i + 1..];
      } else {
        assert [s[0]] + s[1..] == s;
      }
    }
  }

  // ---------------------------------------------------------------------------
  // Number formatting for messages (`${n}` on a non-negative integer).

  function DigitChar(d: int): char
    requires 0 <= d < 10
  {
    ('0' as int + d) as char
  }

  predicate IsDigit(c: char)
  {
    '0' <= c <= '9'
  }

  /** The shortest decimal rendering: digits only, with no leading zero
      unless the number is zero. */
  function NatToString(n: nat): (r: string)
    ensures |r| >= 1
    ensures forall i :: 0 <= i < |r| ==> IsDigit(r[i])
    ensures r[0] == '0' <==> n == 0
    decreases n
  {
    if n < 10 then [DigitChar(n)] else NatToString(n / 10) + [DigitChar(n % 10)]
  }

  /** The value a string of decimal digits denotes. */
  function DecimalValue(s: string): int
    requires forall i :: 0 <= i < |s| ==> IsDigit(s[i])
  {
    if |s| == 0 then 0
    else DecimalValue(s[..|s| - 1]) * 10 + (s[|s| - 1] as int - '0' as int)
  }

  /** Reading the rendering back gives the number. */
  lemma {:induction false} NatToStringRoundTrip(n: nat)
    ensures DecimalValue(NatToString(n)) == n
    decreases n
  {
    if n >= 10 {
      var r := NatToString(n);
      assert r[..|r| - 1] == NatToString(n / 10);
      NatToStringRoundTrip(n / 10);
    }
  }
}
