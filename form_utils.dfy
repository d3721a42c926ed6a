/**
 * The form helpers of the bundled frontend: the phone-number formatter and
 * the e-mail and phone validators. Each is one regular-expression test or
 * replacement in the script; here each regular expression is written out as
 * a predicate on the string, and the lemmas say what it accepts in plain
 * terms.
 *
 * A value that may be missing is an Option<string>; the script's
 * String(x || '') turns a missing or empty value into the empty string.
 * Whitespace is JavaScript's (the \s class and String.prototype.trim).
 */
module FormUtils {
  import opened Wrappers
  import opened Text

  /** String(x || ''): the value itself, or "" when it is missing. */
  function OrEmpty(x: Option<string>): string
  {
    if x.Some? then x.value else ""
  }

  predicate AllSpaces(s: string)
  {
    forall i :: 0 <= i < |s| ==> IsJsSpace(s[i])
  }

  // ----- validatePhone -----

  /** s.replace(/\s/g, ''): s with every whitespace character removed. */
  function RemoveSpaces(s: string): (r: string)
    ensures |r| <= |s|
  {
    if s == [] then []
    else (if IsJsSpace(s[0]) then [] else [s[0]]) + RemoveSpaces(s[1..])
  }

  /** What is left is exactly the characters of s that are not whitespace. */
  lemma {:induction false} RemoveSpacesChars(s: string)
    ensures forall c :: c in RemoveSpaces(s) <==> c in s && !IsJsSpace(c)
  {
    if s != [] {
      RemoveSpacesChars(s[1..]);
      assert s == [s[0]] + s[1..];
    }
  }

  /** Removing whitespace piecewise is removing it from the whole. */
  lemma {:induction false} RemoveSpacesAppend(a: string, b: string)
    ensures RemoveSpaces(a + b) == RemoveSpaces(a) + RemoveSpaces(b)
  {
    if a == [] {
      assert a + b == b;
    } else {
      assert (a + b)[0] == a[0] && (a + b)[1..] == a[1..] + b;
      RemoveSpacesAppend(a[1..], b);
      var x := if IsJsSpace(a[0]) then [] else [a[0]];
      assert RemoveSpaces(a + b) == x + RemoveSpaces(a[1..] + b);
      assert RemoveSpaces(a) == x + RemoveSpaces(a[1..]);
    }
  }

  /** A run of whitespace vanishes entirely. */
  lemma {:induction false} RemoveSpacesOfSpaces(w: string)
    requires AllSpaces(w)
    ensures RemoveSpaces(w) == []
  {
    if w != [] {
      RemoveSpacesOfSpaces(w[1..]);
    }
  }

  /** The pattern ^[0-9]{10,11}$. */
  predicate PhonePattern(t: string)
  {
    (|t| == 10 || |t| == 11) && forall i :: 0 <= i < |t| ==> IsDigit(t[i])
  }

  /** validatePhone: the value with its whitespace removed matches the pattern. */
  function ValidatePhone(phone: Option<string>): (b: bool)
    ensures phone.None? ==> !b
    ensures b ==> 10 <= |phone.value|
  {
    PhonePattern(RemoveSpaces(OrEmpty(phone)))
  }

  /**
   * A phone number is accepted exactly when every character that is not
   * whitespace is a digit and there are ten or eleven of them.
   */
  lemma ValidatePhoneMeans(s: string)
    ensures ValidatePhone(Some(s)) <==>
      (forall i :: 0 <= i < |s| && !IsJsSpace(s[i]) ==> IsDigit(s[i]))
      && 10 <= |RemoveSpaces(s)| <= 11
  {
    var r := RemoveSpaces(s);
    RemoveSpacesChars(s);
    if forall i :: 0 <= i < |s| && !IsJsSpace(s[i]) ==> IsDigit(s[i]) {
      forall i | 0 <= i < |r|
        ensures IsDigit(r[i])
      {
        assert r[i] in r;
        var k :| 0 <= k < |s| && s[k] == r[i];
      }
    }
    if forall i :: 0 <= i < |r| ==> IsDigit(r[i]) {
      forall i | 0 <= i < |s| && !IsJsSpace(s[i])
        ensures IsDigit(s[i])
      {
        assert s[i] in s;
        var k :| 0 <= k < |r| && r[k] == s[i];
      }
    }
  }

  /** Whitespace inserted anywhere in a phone number does not change the verdict. */
  lemma PhoneIgnoresWhitespace(a: string, w: string, b: string)
    requires AllSpaces(w)
    ensures ValidatePhone(Some(a + w + b)) == ValidatePhone(Some(a + b))
  {
    RemoveSpacesAppend(a + w, b);
    RemoveSpacesAppend(a, w);
    RemoveSpacesAppend(a, b);
    RemoveSpacesOfSpaces(w);
    assert RemoveSpaces(a) + [] == RemoveSpaces(a);
  }

  // ----- validateEmail -----

  /** The value with leading whitespace removed. */
  function TrimStart(s: string): (r: string)
    ensures |r| <= |s| && r == s[|s| - |r|..]
    ensures r == [] || !IsJsSpace(r[0])
    ensures AllSpaces(s[..|s| - |r|])
  {
    if s != [] && IsJsSpace(s[0]) then TrimStart(s[1..]) else s
  }

  /** The value with trailing whitespace removed. */
  function TrimEnd(s: string): (r: string)
    ensures |r| <= |s| && r == s[..|r|]
    ensures r == [] || !IsJsSpace(r[|r| - 1])
    ensures AllSpaces(s[|r|..])
  {
    if s != [] && IsJsSpace(s[|s| - 1]) then TrimEnd(s[..|s| - 1]) else s
  }

  /** String.prototype.trim: neither end of the result is whitespace, and only whitespace was cut. */
  function Trim(s: string): (r: string)
    ensures |r| <= |s|
    ensures r == [] || (!IsJsSpace(r[0]) && !IsJsSpace(r[|r| - 1]))
  {
    TrimEnd(TrimStart(s))
  }

  /** Leading whitespace is cut whatever follows it. */
  lemma {:induction false} TrimStartPad(w: string, s: string)
    requires AllSpaces(w)
    ensures TrimStart(w + s) == TrimStart(s)
  {
    if w == [] {
      assert w + s == s;
    } else {
      assert (w + s)[1..] == w[1..] + s;
      TrimStartPad(w[1..], s);
    }
  }

  /** Trailing whitespace is cut whatever precedes it. */
  lemma {:induction false} TrimEndPad(s: string, w: string)
    requires AllSpaces(w)
    ensures TrimEnd(s + w) == TrimEnd(s)
  {
    if w == [] {
      assert s + w == s;
    } else {
      assert (s + w)[..|s + w| - 1] == s + w[..|w| - 1];
      TrimEndPad(s, w[..|w| - 1]);
    }
  }

  /** Trimming the start of s + w: w survives when s has a non-space, else everything goes. */
  lemma {:induction false} TrimStartAppend(s: string, w: string)
    requires AllSpaces(w)
    ensures AllSpaces(s) ==> TrimStart(s + w) == []
    ensures !AllSpaces(s) ==> TrimStart(s + w) == TrimStart(s) + w
  {
    if s == [] {
      assert s + w == w;
      assert w + [] == w;
      TrimStartPad(w, []);
    } else {
      assert (s + w)[0] == s[0] && (s + w)[1..] == s[1..] + w;
      TrimStartAppend(s[1..], w);
      if IsJsSpace(s[0]) {
        assert AllSpaces(s) <==> AllSpaces(s[1..]) by {
          if AllSpaces(s[1..]) {
            forall i | 0 <= i < |s|
              ensures IsJsSpace(s[i])
            {
              if i > 0 {
                assert s[i] == s[1..][i - 1];
              }
            }
          }
        }
      }
    }
  }

  /** Whitespace around a value does not change what trim gives. */
  lemma TrimIgnoresPadding(w1: string, s: string, w2: string)
    requires AllSpaces(w1) && AllSpaces(w2)
    ensures Trim(w1 + s + w2) == Trim(s)
  {
    assert w1 + s + w2 == w1 + (s + w2);
    TrimStartPad(w1, s + w2);
    TrimStartAppend(s, w2);
    if AllSpaces(s) {
      TrimStartAppend(s, []);
      assert s + [] == s;
    } else {
      TrimEndPad(TrimStart(s), w2);
    }
  }

  /** One piece of [^\s@]+: non-empty, no whitespace and no '@'. */
  predicate Plain(seg: string)
  {
    |seg| > 0 && forall i :: 0 <= i < |seg| ==> !IsJsSpace(seg[i]) && seg[i] != '@'
  }

  /** The pattern ^[^\s@]+@[^\s@]+\.[^\s@]+$: some '@' at i and '.' at j split t into three plain pieces. */
  predicate EmailPattern(t: string)
  {
    exists i, j :: 0 <= i < j < |t| && t[i] == '@' && t[j] == '.'
      && Plain(t[..i]) && Plain(t[i + 1..j]) && Plain(t[j + 1..])
  }

  /** validateEmail: the trimmed value matches the pattern. */
  function ValidateEmail(email: Option<string>): (b: bool)
    ensures email.None? ==> !b
  {
    EmailPattern(Trim(OrEmpty(email)))
  }

  /** The domain after the '@' has a '.' with text on both sides. */
  predicate DottedDomain(d: string)
  {
    exists m :: 0 < m < |d| - 1 && d[m] == '.'
  }

  /** The characters of t from lo to hi are neither whitespace nor '@'. */
  predicate PlainBetween(t: string, lo: int, hi: int)
    requires 0 <= lo <= hi <= |t|
  {
    forall n :: lo <= n < hi ==> !IsJsSpace(t[n]) && t[n] != '@'
  }

  /** A slice is one plain piece exactly when it is non-empty and its characters are plain. */
  lemma PlainSlice(t: string, lo: int, hi: int)
    requires 0 <= lo <= hi <= |t|
    ensures Plain(t[lo..hi]) <==> lo < hi && PlainBetween(t, lo, hi)
  {
    var seg := t[lo..hi];
    assert forall n :: lo <= n < hi ==> t[n] == seg[n - lo];
  }

  /** No whitespace, exactly one '@', not first, and a dotted domain after it. */
  predicate PlainAddress(t: string)
  {
    && (forall i :: 0 <= i < |t| ==> !IsJsSpace(t[i]))
    && (exists k :: 0 < k < |t| && t[k] == '@'
         && (forall i :: 0 <= i < |t| && i != k ==> t[i] != '@')
         && DottedDomain(t[k + 1..]))
  }

  /** What the pattern matches is a plain address. */
  lemma PatternIsPlainAddress(t: string)
    requires EmailPattern(t)
    ensures PlainAddress(t)
  {
    var i, j :| 0 <= i < j < |t| && t[i] == '@' && t[j] == '.'
      && Plain(t[..i]) && Plain(t[i + 1..j]) && Plain(t[j + 1..]);
    PlainSlice(t, 0, i);
    PlainSlice(t, i + 1, j);
    PlainSlice(t, j + 1, |t|);
    assert t[..i] == t[0..i] && t[j + 1..] == t[j + 1..|t|];
    forall n | 0 <= n < |t|
      ensures !IsJsSpace(t[n])
      ensures n != i ==> t[n] != '@'
    {
    }
    var d := t[i + 1..];
    assert d[j - i - 1] == '.';
  }

  /** A plain address matches the pattern. */
  lemma PlainAddressIsPattern(t: string)
    requires PlainAddress(t)
    ensures EmailPattern(t)
  {
    var k :| 0 < k < |t| && t[k] == '@'
      && (forall i :: 0 <= i < |t| && i != k ==> t[i] != '@')
      && DottedDomain(t[k + 1..]);
    var d := t[k + 1..];
    var m :| 0 < m < |d| - 1 && d[m] == '.';
    var j := k + 1 + m;
    assert t[j] == d[m];
    PlainSlice(t, 0, k);
    PlainSlice(t, k + 1, j);
    PlainSlice(t, j + 1, |t|);
    assert t[..k] == t[0..k] && t[j + 1..] == t[j + 1..|t|];
  }

  /**
   * The pattern in plain words: no whitespace, exactly one '@', not at the
   * start, and a domain after it with a '.' that has text on both sides.
   */
  lemma EmailPatternMeans(t: string)
    ensures EmailPattern(t) <==> PlainAddress(t)
  {
    if EmailPattern(t) {
      PatternIsPlainAddress(t);
    }
    if PlainAddress(t) {
      PlainAddressIsPattern(t);
    }
  }

  /** Whitespace around an address does not change the verdict. */
  lemma EmailIgnoresPadding(w1: string, s: string, w2: string)
    requires AllSpaces(w1) && AllSpaces(w2)
    ensures ValidateEmail(Some(w1 + s + w2)) == ValidateEmail(Some(s))
  {
    TrimIgnoresPadding(w1, s, w2);
  }

  // ----- formatPhone -----

  /** Ten digits start at position p. */
  predicate TenDigitsAt(s: string, p: int)
  {
    0 <= p && p + 10 <= |s| && forall k :: p <= k < p + 10 ==> IsDigit(s[k])
  }

  /** The leftmost position at or after `from` where ten digits start, as a regular-expression search finds it. */
  function FirstRun(s: string, from: nat): (r: Option<nat>)
    requires from <= |s|
    ensures r.Some? ==> from <= r.value && TenDigitsAt(s, r.value)
    ensures r.Some? ==> forall q :: from <= q < r.value ==> !TenDigitsAt(s, q)
    ensures r.None? ==> forall q :: from <= q ==> !TenDigitsAt(s, q)
    decreases |s| - from
  {
    if from + 10 > |s| then None
    else if TenDigitsAt(s, from) then Some(from)
    else FirstRun(s, from + 1)
  }

  /**
   * formatPhone: '-' for a missing or empty value; otherwise the first run of
   * ten digits becomes "dddd ddd ddd" and the rest of the value is kept.
   */
  function FormatPhone(phone: Option<string>): (r: string)
    ensures phone.None? || phone.value == [] ==> r == "-"
    ensures phone.Some? && phone.value != [] && (forall q :: !TenDigitsAt(phone.value, q)) ==> r == phone.value
  {
    if phone.None? || phone.value == [] then "-"
    else
      var s := phone.value;
      match FirstRun(s, 0)
      case None => s
      case Some(p) => s[..p] + s[p..p + 4] + " " + s[p + 4..p + 7] + " " + s[p + 7..p + 10] + s[p + 10..]
  }

  /**
   * The formatter only inserts two spaces, after the fourth and the seventh
   * digit of the leftmost ten-digit run; deleting them gives the value back.
   * Without such a run the value is returned unchanged.
   */
  lemma FormatPhoneOnlyInsertsSpaces(s: string)
    requires s != []
    ensures var r := FormatPhone(Some(s));
      match FirstRun(s, 0)
      case None => r == s
      case Some(p) =>
        && |r| == |s| + 2 && r[p + 4] == ' ' && r[p + 8] == ' '
        && r[..p + 4] + r[p + 5..p + 8] + r[p + 9..] == s
  {
    match FirstRun(s, 0)
    case None =>
    case Some(p) =>
      var r := FormatPhone(Some(s));
      assert r[..p + 4] == s[..p + 4];
      assert r[p + 5..p + 8] == s[p + 4..p + 7];
      assert r[p + 9..] == s[p + 7..];
      assert s[..p + 4] + s[p + 4..p + 7] + s[p + 7..] == s;
  }

  /** Worked values: the two sample numbers, a short one, and the missing cases. */
  lemma FormatPhoneExamples()
    ensures FormatPhone(Some("0123456789")) == "0123 456 789"
    ensures FormatPhone(Some("01234567890")) == "0123 456 7890"
    ensures FormatPhone(Some("12345")) == "12345"
    ensures FormatPhone(None) == "-" && FormatPhone(Some("")) == "-"
  {
    var a, b := "0123456789", "01234567890";
    assert TenDigitsAt(a, 0);
    assert a[..0] + a[0..4] + " " + a[4..7] + " " + a[7..10] + a[10..] == "0123 456 789";
    assert TenDigitsAt(b, 0);
    assert b[..0] + b[0..4] + " " + b[4..7] + " " + b[7..10] + b[10..] == "0123 456 7890";
  }
}
