/**
 * The pure field formatters both normalizers share: phone numbers, ZIP code
 * extraction with the pattern `\d{5}(-\d{4})?`, and the string cleaning that
 * precedes `float()` for currency amounts.
 */
module Formatters {
  import opened PyValues

  // ---------------------------------------------------------------- phones

  /** `re.sub(r"\D", "", s)`: the digits of `s`, in order. */
  function DigitsOnly(s: string): (r: string)
    ensures |r| <= |s|
    ensures forall i | 0 <= i < |r| :: IsDigit(r[i])
  {
    if s == [] then [] else (if IsDigit(s[0]) then [s[0]] else []) + DigitsOnly(s[1..])
  }

  lemma {:induction false} DigitsOnlyAppend(a: string, b: string)
    ensures DigitsOnly(a + b) == DigitsOnly(a) + DigitsOnly(b)
  {
    if a != [] {
      assert (a + b)[0] == a[0] && (a + b)[1..] == a[1..] + b;
      DigitsOnlyAppend(a[1..], b);
      var h := if IsDigit(a[0]) then [a[0]] else [];
      calc {
        DigitsOnly(a + b);
        h + DigitsOnly(a[1..] + b);
        h + (DigitsOnly(a[1..]) + DigitsOnly(b));
        (h + DigitsOnly(a[1..])) + DigitsOnly(b);
        DigitsOnly(a) + DigitsOnly(b);
      }
    } else {
      assert a + b == b;
    }
  }

  lemma {:induction false} DigitsOnlyOfDigits(s: string)
    requires forall i | 0 <= i < |s| :: IsDigit(s[i])
    ensures DigitsOnly(s) == s
  {
    if s != [] {
      DigitsOnlyOfDigits(s[1..]);
    }
  }

  /** `f"{d[:3]}-{d[3:6]}-{d[6:]}"` on ten digits. */
  function Dashed(d: string): string
    requires |d| == 10
  {
    d[..3] + "-" + d[3..6] + "-" + d[6..]
  }

  /** The `DDD-DDD-DDDD` shape. */
  predicate IsPhoneFormat(s: string) {
    |s| == 12 && s[3] == '-' && s[7] == '-'
    && forall i | 0 <= i < 12 && i != 3 && i != 7 :: IsDigit(s[i])
  }

  /** Dashing ten digits gives the phone shape, and its digits are the ten digits again. */
  lemma DashedRoundTrip(d: string)
    requires |d| == 10 && forall i | 0 <= i < 10 :: IsDigit(d[i])
    ensures IsPhoneFormat(Dashed(d))
    ensures DigitsOnly(Dashed(d)) == d
  {
    var a, b, c := d[..3], d[3..6], d[6..];
    assert Dashed(d) == (a + ['-'] + b) + ['-'] + c;
    assert IsPhoneFormat(Dashed(d)) by {
      var p := Dashed(d);
      assert forall i | 0 <= i < 3 :: p[i] == d[i];
      assert forall i | 4 <= i < 7 :: p[i] == d[i - 1];
      assert forall i | 8 <= i < 12 :: p[i] == d[i - 2];
    }
    assert DigitsOnly(Dashed(d)) == DigitsOnly(a + ['-'] + b) + DigitsOnly(c) by {
      DigitsOnlySkip(a + ['-'] + b, '-', c);
    }
    assert DigitsOnly(a + ['-'] + b) == a + b by {
      DigitsOnlySkip(a, '-', b);
      DigitsOnlyOfDigits(a);
      DigitsOnlyOfDigits(b);
    }
    assert DigitsOnly(c) == c by {
      DigitsOnlyOfDigits(c);
    }
    assert a + b + c == d;
  }

  /**
   * `normalize_phone`: ten digits are dashed, eleven digits led by `1` lose the
   * `1` and are dashed, anything else comes back trimmed, or None when the
   * trimmed text is empty; NA gives None.
   */
  function NormalizePhone(phone: Value): (r: Option<string>)
    ensures r.None? <==> IsNA(phone) || Strip(PyStr(phone)) == ""
    ensures !IsNA(phone) && |DigitsOnly(Strip(PyStr(phone)))| == 10 ==>
      r.Some? && IsPhoneFormat(r.value) && DigitsOnly(r.value) == DigitsOnly(Strip(PyStr(phone)))
    ensures !IsNA(phone) && |DigitsOnly(Strip(PyStr(phone)))| == 11 && DigitsOnly(Strip(PyStr(phone)))[0] == '1' ==>
      r.Some? && IsPhoneFormat(r.value) && DigitsOnly(r.value) == DigitsOnly(Strip(PyStr(phone)))[1..]
    ensures (!IsNA(phone) && |DigitsOnly(Strip(PyStr(phone)))| != 10
             && !(|DigitsOnly(Strip(PyStr(phone)))| == 11 && DigitsOnly(Strip(PyStr(phone)))[0] == '1')
             && Strip(PyStr(phone)) != "") ==> r == Some(Strip(PyStr(phone)))
  {
    if IsNA(phone) then None
    else
      var text := Strip(PyStr(phone));
      var digits := DigitsOnly(text);
      if |digits| == 10 then
        DashedRoundTrip(digits);
        Some(Dashed(digits))
      else if |digits| == 11 && digits[0] == '1' then
        DashedRoundTrip(digits[1..]);
        Some(Dashed(digits[1..]))
      else if text != "" then Some(text)
      else None
  }

  /** The digits of a number in phone shape are its three digit groups. */
  lemma PhoneDigits(p: string)
    requires IsPhoneFormat(p)
    ensures DigitsOnly(p) == p[..3] + p[4..7] + p[8..]
    ensures Dashed(DigitsOnly(p)) == p
  {
    var a, b, c := p[..3], p[4..7], p[8..];
    assert p == (a + [p[3]] + b) + [p[7]] + c;
    assert DigitsOnly(p) == DigitsOnly(a + [p[3]] + b) + DigitsOnly(c) by {
      DigitsOnlySkip(a + [p[3]] + b, p[7], c);
    }
    assert DigitsOnly(a + [p[3]] + b) == a + b by {
      DigitsOnlySkip(a, p[3], b);
      DigitsOnlyOfDigits(a);
      DigitsOnlyOfDigits(b);
    }
    assert DigitsOnly(c) == c by {
      DigitsOnlyOfDigits(c);
    }
    var d := a + b + c;
    assert d[..3] == a && d[3..6] == b && d[6..] == c;
  }

  /** A non-digit between two texts contributes nothing to their digits. */
  lemma DigitsOnlySkip(a: string, x: char, b: string)
    requires !IsDigit(x)
    ensures DigitsOnly(a + [x] + b) == DigitsOnly(a) + DigitsOnly(b)
  {
    DigitsOnlyAppend(a + [x], b);
    DigitsOnlyAppend(a, [x]);
    assert DigitsOnly([x]) == [] by {
      assert [x][1..] == [];
    }
    assert DigitsOnly(a) + [] == DigitsOnly(a);
  }

  /** A number already in phone shape is its own normal form. */
  lemma PhoneFormatFixed(p: string)
    requires IsPhoneFormat(p)
    ensures NormalizePhone(Str(p)) == Some(p)
  {
    assert !IsSpace(p[0]) && !IsSpace(p[11]);
    StripUnchanged(p);
    PhoneDigits(p);
  }

  /** A normalised phone number normalises to itself. */
  lemma NormalizePhoneIdempotent(phone: Value)
    requires NormalizePhone(phone).Some?
    ensures NormalizePhone(Str(NormalizePhone(phone).value)) == NormalizePhone(phone)
  {
    var p := NormalizePhone(phone).value;
    var text := Strip(PyStr(phone));
    var digits := DigitsOnly(text);
    if |digits| == 10 || (|digits| == 11 && digits[0] == '1') {
      PhoneFormatFixed(p);
    } else {
      StripIdempotent(PyStr(phone));
      PhoneTextFixed(text);
    }
  }

  /** Trimmed text that is not a ten- or eleven-digit number is its own normal form. */
  lemma PhoneTextFixed(text: string)
    requires Strip(text) == text && text != ""
    requires |DigitsOnly(text)| != 10 && !(|DigitsOnly(text)| == 11 && DigitsOnly(text)[0] == '1')
    ensures NormalizePhone(Str(text)) == Some(text)
  {
  }

  // ---------------------------------------------------------------- ZIP codes

  /** `-dddd` follows the five digits starting at `i`. */
  predicate PlusFourAt(s: string, i: int) {
    0 <= i && i + 10 <= |s| && s[i + 5] == '-' && DigitsAt(s, i + 6, 4)
  }

  /** What `\d{5}(-\d{4})?` matches at `i`: the optional group is taken whenever it matches. */
  function MatchAt(s: string, i: int): string
    requires DigitsAt(s, i, 5)
  {
    if PlusFourAt(s, i) then s[i..i + 10] else s[i..i + 5]
  }

  /** The shape of a ZIP code the pattern matches in full. */
  predicate IsZip(z: string) {
    DigitsAt(z, 0, 5) && (|z| == 5 || (|z| == 10 && z[5] == '-' && DigitsAt(z, 6, 4)))
  }

  /** The leftmost position at or after `from` where five digits start. */
  function FirstFive(s: string, from: nat): (r: Option<nat>)
    ensures r.Some? ==> from <= r.value && DigitsAt(s, r.value, 5)
    ensures forall j | from <= j && (r.None? || j < r.value) :: !DigitsAt(s, j, 5)
    decreases |s| - from
  {
    if from + 5 > |s| then None
    else if DigitsAt(s, from, 5) then Some(from)
    else FirstFive(s, from + 1)
  }

  /** `re.search(r"\d{5}(-\d{4})?", s).group(0)`, None when nothing matches. */
  function ZipSearch(s: string): (r: Option<string>)
    ensures r.None? <==> forall j :: !DigitsAt(s, j, 5)
    ensures r.Some? ==> IsZip(r.value)
    ensures r.Some? ==> var i := FirstFive(s, 0).value; r.value == MatchAt(s, i) && r.value == s[i..i + |r.value|]
  {
    match FirstFive(s, 0)
    case None => None
    case Some(i) =>
      var z := MatchAt(s, i);
      assert DigitsAt(z, 0, 5) by {
        forall j | 0 <= j < 5 ensures IsDigit(z[j]) { assert z[j] == s[i + j]; }
      }
      assert |z| == 10 ==> z[5] == '-' && DigitsAt(z, 6, 4) by {
        if |z| == 10 {
          forall j | 6 <= j < 10 ensures IsDigit(z[j]) { assert z[j] == s[i + j]; }
        }
      }
      Some(z)
  }

  /** A ZIP code is found whole in itself, so extraction is idempotent. */
  lemma ZipSearchOfZip(z: string)
    requires IsZip(z)
    ensures ZipSearch(z) == Some(z)
  {
    assert FirstFive(z, 0) == Some(0);
    if |z| == 10 {
      assert PlusFourAt(z, 0);
      assert z[0..10] == z;
    } else {
      assert z[0..5] == z;
    }
  }

  /** `re.match(r"\d{5}(-\d{4})?", s)` succeeds: `s` begins with five digits. */
  predicate ZipPrefix(s: string) {
    DigitsAt(s, 0, 5)
  }

  // ---------------------------------------------------------------- currency

  /** `s.replace(pat, "")`: a single left-to-right pass removing non-overlapping occurrences. */
  function RemoveAll(s: string, pat: string): (r: string)
    requires pat != []
    ensures |r| <= |s|
    decreases |s|
  {
    if |s| < |pat| then s
    else if s[..|pat|] == pat then RemoveAll(s[|pat|..], pat)
    else [s[0]] + RemoveAll(s[1..], pat)
  }

  /** Removing a one-character pattern leaves none of it, and leaves text without it alone. */
  lemma {:induction false} RemoveAllChar(s: string, c: char)
    ensures forall i | 0 <= i < |RemoveAll(s, [c])| :: RemoveAll(s, [c])[i] != c
    ensures (forall i | 0 <= i < |s| :: s[i] != c) ==> RemoveAll(s, [c]) == s
  {
    if |s| >= 1 {
      RemoveAllChar(s[1..], c);
    }
  }

  /**
   * Removing a one-character pattern works character by character: it
   * distributes over concatenation, and a single character is dropped exactly
   * when it is the pattern. So every other character is kept, in order.
   */
  lemma {:induction false} RemoveAllCharAppend(a: string, b: string, c: char)
    ensures RemoveAll(a + b, [c]) == RemoveAll(a, [c]) + RemoveAll(b, [c])
  {
    if a != [] {
      assert (a + b)[..1] == a[..1] && (a + b)[1..] == a[1..] + b;
      RemoveAllCharAppend(a[1..], b, c);
    } else {
      assert a + b == b;
    }
  }

  lemma RemoveAllCharSingle(x: char, c: char)
    ensures RemoveAll([x], [c]) == if x == c then [] else [x]
  {
    assert [x][..1] == [x] && [x][1..] == [];
  }

  /** `pat` occurs in `s` at `i`. */
  predicate OccursAt(s: string, i: int, pat: string) {
    0 <= i && i + |pat| <= |s| && s[i..i + |pat|] == pat
  }

  /** A pattern that does not occur is not removed. */
  lemma {:induction false} RemoveAllAbsent(s: string, pat: string)
    requires pat != []
    requires forall i :: !OccursAt(s, i, pat)
    ensures RemoveAll(s, pat) == s
    decreases |s|
  {
    if |s| >= |pat| {
      assert !OccursAt(s, 0, pat) && s[0..|pat|] == s[..|pat|];
      forall i ensures !OccursAt(s[1..], i, pat)
      {
        if 0 <= i && i + |pat| <= |s| - 1 {
          assert s[1..][i..i + |pat|] == s[i + 1..i + 1 + |pat|];
          assert !OccursAt(s, i + 1, pat);
        }
      }
      RemoveAllAbsent(s[1..], pat);
      assert s == [s[0]] + s[1..];
    }
  }

  /** An occurrence of `pat` at the front is removed and the pass goes on after it. */
  lemma RemoveAllMatch(pat: string, b: string)
    requires pat != []
    ensures RemoveAll(pat + b, pat) == RemoveAll(b, pat)
  {
    assert (pat + b)[..|pat|] == pat && (pat + b)[|pat|..] == b;
  }

  /** A prefix in which no occurrence of `pat` starts is kept whole. */
  lemma {:induction false} RemoveAllKeep(a: string, b: string, pat: string)
    requires pat != []
    requires forall i | 0 <= i < |a| :: !OccursAt(a + b, i, pat)
    ensures RemoveAll(a + b, pat) == a + RemoveAll(b, pat)
    decreases |a|
  {
    var s := a + b;
    if a == [] {
      assert s == b;
    } else if |s| < |pat| {
      assert RemoveAll(b, pat) == b;
    } else {
      assert !OccursAt(s, 0, pat) && s[0..|pat|] == s[..|pat|];
      var t := a[1..];
      assert s[1..] == t + b;
      forall i | 0 <= i < |t| ensures !OccursAt(t + b, i, pat) {
        assert !OccursAt(s, i + 1, pat);
        if i + |pat| <= |t + b| {
          assert (t + b)[i..i + |pat|] == s[i + 1..i + 1 + |pat|];
        }
      }
      RemoveAllKeep(t, b, pat);
      assert s == [a[0]] + (t + b) && a == [a[0]] + t;
    }
  }

  /** The symbols `normalize_currency` removes, in order. */
  const CurrencySymbols: seq<string> := ["$", "USD", "usd"]

  lemma CurrencySymbolsNonEmpty()
    ensures forall i | 0 <= i < |CurrencySymbols| :: CurrencySymbols[i] != []
  {
    assert CurrencySymbols[0] == "$" && CurrencySymbols[1] == "USD" && CurrencySymbols[2] == "usd";
  }

  /** The text after each symbol of `symbols` has been removed in turn. */
  function RemoveSymbols(s: string, symbols: seq<string>): string
    requires forall i | 0 <= i < |symbols| :: symbols[i] != []
  {
    if symbols == [] then s
    else RemoveAll(RemoveSymbols(s, symbols[..|symbols| - 1]), symbols[|symbols| - 1])
  }

  /** `re.sub(r"[,\s]", "", s)`. */
  function DropSeparators(s: string): (r: string)
    ensures |r| <= |s|
    ensures forall i | 0 <= i < |r| :: r[i] != ',' && !IsSpace(r[i])
  {
    if s == [] then []
    else (if s[0] == ',' || IsSpace(s[0]) then [] else [s[0]]) + DropSeparators(s[1..])
  }

  lemma {:induction false} DropSeparatorsUnchanged(s: string)
    requires forall i | 0 <= i < |s| :: s[i] != ',' && !IsSpace(s[i])
    ensures DropSeparators(s) == s
  {
    if s != [] {
      DropSeparatorsUnchanged(s[1..]);
    }
  }

  lemma {:induction false} DropKeepsAbsent(s: string, c: char)
    requires forall i | 0 <= i < |s| :: s[i] != c
    ensures forall i | 0 <= i < |DropSeparators(s)| :: DropSeparators(s)[i] != c
  {
    if s != [] {
      DropKeepsAbsent(s[1..], c);
    }
  }

  /**
   * Dropping separators works character by character: it distributes over
   * concatenation, and a single character is dropped exactly when it is a
   * comma or whitespace. So every other character is kept, in order.
   */
  lemma {:induction false} DropSeparatorsAppend(a: string, b: string)
    ensures DropSeparators(a + b) == DropSeparators(a) + DropSeparators(b)
  {
    if a != [] {
      assert (a + b)[0] == a[0] && (a + b)[1..] == a[1..] + b;
      DropSeparatorsAppend(a[1..], b);
    } else {
      assert a + b == b;
    }
  }

  lemma DropSeparatorsSingle(x: char)
    ensures DropSeparators([x]) == if x == ',' || IsSpace(x) then [] else [x]
  {
    assert [x][1..] == [];
  }

  /** The text `float()` is handed: trimmed, symbols removed, then commas and whitespace removed. */
  function CleanCurrency(s: string): (r: string)
    ensures forall i | 0 <= i < |r| :: r[i] != ',' && !IsSpace(r[i])
    ensures forall i | 0 <= i < |r| :: r[i] != '$'
  {
    CurrencySymbolsNonEmpty();
    var t := RemoveSymbols(Strip(s), CurrencySymbols);
    RemoveDollar(Strip(s));
    DropKeepsAbsent(t, '$');
    DropSeparators(t)
  }

  /** The three removals, spelled out. */
  lemma CurrencyRemovals(s: string)
    ensures RemoveSymbols(s, CurrencySymbols) == RemoveAll(RemoveAll(RemoveAll(s, "$"), "USD"), "usd")
  {
    var cs := CurrencySymbols;
    assert cs[..2] == ["$", "USD"] && cs[..2][..1] == ["$"] && cs[..2][..1][..0] == [];
    assert RemoveSymbols(s, cs[..2][..1]) == RemoveAll(s, "$");
    assert RemoveSymbols(s, cs[..2]) == RemoveAll(RemoveAll(s, "$"), "USD");
  }

  lemma RemoveDollar(s: string)
    ensures forall i | 0 <= i < |RemoveSymbols(s, CurrencySymbols)| :: RemoveSymbols(s, CurrencySymbols)[i] != '$'
  {
    CurrencyRemovals(s);
    var a := RemoveAll(s, "$");
    RemoveAllChar(s, '$');
    NoCharSurvives(a, "USD", '$');
    NoCharSurvives(RemoveAll(a, "USD"), "usd", '$');
  }

  /** Removing a pattern never introduces a character. */
  lemma {:induction false} NoCharSurvives(s: string, pat: string, c: char)
    requires pat != []
    requires forall i | 0 <= i < |s| :: s[i] != c
    ensures forall i | 0 <= i < |RemoveAll(s, pat)| :: RemoveAll(s, pat)[i] != c
    decreases |s|
  {
    if |s| >= |pat| {
      if s[..|pat|] == pat {
        NoCharSurvives(s[|pat|..], pat, c);
      } else {
        NoCharSurvives(s[1..], pat, c);
      }
    }
  }

  /** The `for symbol in currency_symbols` loop of `normalize_currency`. */
  method RemoveCurrencySymbols(s: string) returns (r: string)
    ensures r == RemoveSymbols(s, CurrencySymbols)
  {
    r := s;
    for i := 0 to |CurrencySymbols|
      invariant r == RemoveSymbols(s, CurrencySymbols[..i])
    {
      assert CurrencySymbols[..i + 1][..i] == CurrencySymbols[..i];
      r := RemoveAll(r, CurrencySymbols[i]);
    }
    assert CurrencySymbols[..|CurrencySymbols|] == CurrencySymbols;
  }

  /** `normalize_currency` on one value: None for NA, else `float()` of the cleaned text, warning when it does not parse. */
  function CurrencyStep(parse: string -> Option<real>, v: Value): Parsed<real> {
    if IsNA(v) then Parsed(None, false)
    else
      var amount := parse(CleanCurrency(PyStr(v)));
      Parsed(amount, amount.None?)
  }

  /** Text made of digits, points and minus signs only. */
  predicate IsPlainAmount(s: string) {
    forall i | 0 <= i < |s| :: IsDigit(s[i]) || s[i] == '.' || s[i] == '-'
  }

  lemma OccursAtHead(s: string, pat: string)
    requires pat != []
    ensures forall i | OccursAt(s, i, pat) :: s[i] == pat[0]
  {
    forall i | OccursAt(s, i, pat)
      ensures s[i] == pat[0]
    {
      assert s[i..i + |pat|][0] == s[i];
    }
  }

  /** A pattern whose first character does not occur is not removed. */
  lemma AbsentFirstChar(s: string, pat: string)
    requires pat != [] && forall i | 0 <= i < |s| :: s[i] != pat[0]
    ensures RemoveAll(s, pat) == s
  {
    OccursAtHead(s, pat);
    RemoveAllAbsent(s, pat);
  }

  /** A plain amount is handed to `float()` unchanged. */
  lemma CleanCurrencyPlain(s: string)
    requires IsPlainAmount(s)
    ensures CleanCurrency(s) == s
  {
    StripPlain(s);
    RemoveSymbolsPlain(s);
    DropSeparatorsPlain(s);
  }

  lemma StripPlain(s: string)
    requires IsPlainAmount(s)
    ensures Strip(s) == s
  {
    assert s != [] ==> !IsSpace(s[0]) && !IsSpace(s[|s| - 1]);
    StripUnchanged(s);
  }

  lemma RemoveSymbolsPlain(s: string)
    requires IsPlainAmount(s)
    ensures RemoveSymbols(s, CurrencySymbols) == s
  {
    PlainChars(s);
    CurrencyRemovals(s);
    AbsentFirstChar(s, "$");
    AbsentFirstChar(s, "USD");
    AbsentFirstChar(s, "usd");
  }

  lemma DropSeparatorsPlain(s: string)
    requires IsPlainAmount(s)
    ensures DropSeparators(s) == s
  {
    PlainChars(s);
    DropSeparatorsUnchanged(s);
  }

  /** A plain amount holds none of the characters the cleaning removes. */
  lemma PlainChars(s: string)
    requires IsPlainAmount(s)
    ensures forall i | 0 <= i < |s| :: s[i] != '$' && s[i] != 'U' && s[i] != 'u' && s[i] != ',' && !IsSpace(s[i])
  {
  }

  /** A dollar sign in front of a plain amount is dropped. */
  lemma CleanCurrencyDollar(p: string)
    requires IsPlainAmount(p)
    ensures CleanCurrency("$" + p) == p
  {
    var s := "$" + p;
    assert Strip(s) == s by {
      assert s != [] && !IsSpace(s[0]) && (p != [] ==> !IsSpace(s[|s| - 1]));
      StripUnchanged(s);
    }
    DollarRemoved(p);
    DropSeparatorsPlain(p);
  }

  lemma DollarRemoved(p: string)
    requires IsPlainAmount(p)
    ensures RemoveSymbols("$" + p, CurrencySymbols) == p
  {
    var s := "$" + p;
    PlainChars(p);
    CurrencyRemovals(s);
    assert RemoveAll(s, "$") == p by {
      assert s[..1] == "$" && s[1..] == p;
      AbsentFirstChar(p, "$");
    }
    AbsentFirstChar(p, "USD");
    AbsentFirstChar(p, "usd");
  }

  /** Trimming introduces no character. */
  lemma StripKeepsAbsent(s: string, c: char)
    requires forall i | 0 <= i < |s| :: s[i] != c
    ensures forall i | 0 <= i < |Strip(s)| :: Strip(s)[i] != c
  {
    var u := Strip(s);
    var d := |s| - |TrimLeft(s)|;
    forall i | 0 <= i < |u| ensures u[i] != c {
      assert u[i] == s[d..][i] == s[d + i];
    }
  }

  /** Text holding none of the currency symbols' first characters. */
  predicate SymbolFree(s: string) {
    forall i | 0 <= i < |s| :: s[i] != '$' && s[i] != 'U' && s[i] != 'u'
  }

  lemma SymbolFreeAppend(x: string, y: string)
    requires SymbolFree(x) && SymbolFree(y)
    ensures SymbolFree(x + y)
  {
    forall i | 0 <= i < |x + y| ensures (x + y)[i] != '$' && (x + y)[i] != 'U' && (x + y)[i] != 'u' {
      if i < |x| {
        assert (x + y)[i] == x[i];
      } else {
        assert (x + y)[i] == y[i - |x|];
      }
    }
  }

  /** The first and last characters of `a`, `m` and `b` joined. */
  lemma JoinEnds(a: string, m: char, b: string)
    ensures var s := a + [m] + b;
      s[0] == (if a == [] then m else a[0]) && s[|s| - 1] == (if b == [] then m else b[|b| - 1])
  {
  }

  /** The text from which `CleanCurrency` drops the separators. */
  lemma CleanCurrencyOf(s: string, u: string)
    requires RemoveSymbols(Strip(s), CurrencySymbols) == u
    ensures CleanCurrency(s) == DropSeparators(u)
  {
  }

  /** Symbol-free text loses no symbol. */
  lemma RemoveSymbolsFree(t: string)
    requires SymbolFree(t)
    ensures RemoveSymbols(t, CurrencySymbols) == t
  {
    CurrencyRemovals(t);
    AbsentFirstChar(t, "$");
    AbsentFirstChar(t, "USD");
    AbsentFirstChar(t, "usd");
  }

  /**
   * Text holding none of the symbols' first characters only loses its
   * surrounding whitespace and its commas and whitespace.
   */
  lemma CleanCurrencyNoSymbols(s: string)
    requires SymbolFree(s)
    ensures CleanCurrency(s) == DropSeparators(Strip(s))
  {
    var t := Strip(s);
    StripKeepsAbsent(s, '$');
    StripKeepsAbsent(s, 'U');
    StripKeepsAbsent(s, 'u');
    RemoveSymbolsFree(t);
    CleanCurrencyOf(s, t);
  }

  /** The separators between plain amounts go, the amounts stay. */
  lemma DropSeparatorsGrouped(a: string, b: string)
    requires IsPlainAmount(a) && IsPlainAmount(b)
    ensures DropSeparators(a + [','] + b) == a + b
  {
    DropSeparatorsAppend(a + [','], b);
    DropSeparatorsAppend(a, [',']);
    DropSeparatorsSingle(',');
    DropSeparatorsPlain(a);
    DropSeparatorsPlain(b);
    assert a + [] == a;
  }

  /** An amount with a thousands separator, as `1,234.56`, stays free of symbols and untrimmed. */
  lemma GroupedShape(a: string, b: string)
    requires IsPlainAmount(a) && IsPlainAmount(b)
    ensures var s := a + [','] + b; SymbolFree(s) && !IsSpace(s[0]) && !IsSpace(s[|s| - 1])
  {
    PlainChars(a);
    PlainChars(b);
    assert SymbolFree(a) && SymbolFree(b) && SymbolFree([',']);
    SymbolFreeAppend(a, [',']);
    SymbolFreeAppend(a + [','], b);
    JoinEnds(a, ',', b);
  }

  /** A thousands separator between two plain amounts is dropped: `1,234.56` is read as `1234.56`. */
  lemma CleanCurrencyGrouped(a: string, b: string)
    requires IsPlainAmount(a) && IsPlainAmount(b)
    ensures CleanCurrency(a + [','] + b) == a + b
  {
    var s := a + [','] + b;
    GroupedShape(a, b);
    assert Strip(s) == s by {
      StripUnchanged(s);
    }
    CleanCurrencyNoSymbols(s);
    DropSeparatorsGrouped(a, b);
  }

  /** Text that starts and ends in a non-space is not trimmed. */
  lemma StripJoined(x: string, t: string)
    requires x != [] && !IsSpace(x[0]) && t != [] && !IsSpace(t[|t| - 1])
    ensures Strip(x + t) == x + t
  {
    var s := x + t;
    assert s[0] == x[0] && s[|s| - 1] == t[|t| - 1];
    StripUnchanged(s);
  }

  lemma DollarPrefixRemoved(t: string)
    requires SymbolFree(t)
    ensures RemoveSymbols("$" + t, CurrencySymbols) == t
  {
    CurrencySymbolsNonEmpty();
    var s := "$" + t;
    CurrencyRemovals(s);
    assert RemoveAll(s, "$") == t by {
      RemoveAllMatch("$", t);
      AbsentFirstChar(t, "$");
    }
    AbsentFirstChar(t, "USD");
    AbsentFirstChar(t, "usd");
  }

  /** A dollar sign in front of symbol-free text ending in a non-space is dropped. */
  lemma CleanCurrencyDollarText(t: string)
    requires SymbolFree(t) && t != [] && !IsSpace(t[|t| - 1])
    ensures CleanCurrency("$" + t) == DropSeparators(t)
  {
    StripJoined("$", t);
    DollarPrefixRemoved(t);
    CleanCurrencyOf("$" + t, t);
  }

  /** A leading dollar sign and thousands separators are both dropped: `$1,234.56` is read as `1234.56`. */
  lemma CleanCurrencyDollarGrouped(a: string, b: string)
    requires IsPlainAmount(a) && IsPlainAmount(b)
    ensures CleanCurrency("$" + (a + [','] + b)) == a + b
  {
    GroupedShape(a, b);
    CleanCurrencyDollarText(a + [','] + b);
    DropSeparatorsGrouped(a, b);
  }

  lemma UsdPrefixRemoved(t: string)
    requires SymbolFree(t)
    ensures RemoveSymbols("USD" + t, CurrencySymbols) == t
  {
    CurrencySymbolsNonEmpty();
    var s := "USD" + t;
    CurrencyRemovals(s);
    assert RemoveAll(s, "$") == s by {
      assert forall i | 3 <= i < |s| :: s[i] == t[i - 3];
      AbsentFirstChar(s, "$");
    }
    assert RemoveAll(s, "USD") == t by {
      RemoveAllMatch("USD", t);
      AbsentFirstChar(t, "USD");
    }
    AbsentFirstChar(t, "usd");
  }

  /** `USD` in front of symbol-free text ending in a non-space is dropped. */
  lemma CleanCurrencyUsdText(t: string)
    requires SymbolFree(t) && t != [] && !IsSpace(t[|t| - 1])
    ensures CleanCurrency("USD" + t) == DropSeparators(t)
  {
    StripJoined("USD", t);
    UsdPrefixRemoved(t);
    CleanCurrencyOf("USD" + t, t);
  }

  /** A leading `USD ` is dropped: `USD 1500` is read as `1500`. */
  lemma CleanCurrencyUsd(p: string)
    requires IsPlainAmount(p) && p != []
    ensures CleanCurrency("USD" + ([' '] + p)) == p
  {
    var t := [' '] + p;
    PlainChars(p);
    assert SymbolFree(t) && t[|t| - 1] == p[|p| - 1] by {
      assert SymbolFree([' ']) && SymbolFree(p);
      SymbolFreeAppend([' '], p);
    }
    CleanCurrencyUsdText(t);
    DropSeparatorsAppend([' '], p);
    DropSeparatorsSingle(' ');
    DropSeparatorsPlain(p);
  }

  lemma UsdLowerPrefixRemoved(t: string)
    requires SymbolFree(t)
    ensures RemoveSymbols("usd" + t, CurrencySymbols) == t
  {
    CurrencySymbolsNonEmpty();
    var s := "usd" + t;
    CurrencyRemovals(s);
    assert forall i | 3 <= i < |s| :: s[i] == t[i - 3];
    AbsentFirstChar(s, "$");
    AbsentFirstChar(s, "USD");
    assert RemoveAll(s, "usd") == t by {
      RemoveAllMatch("usd", t);
      AbsentFirstChar(t, "usd");
    }
  }

  /** `usd` in front of symbol-free text ending in a non-space is dropped. */
  lemma CleanCurrencyUsdLowerText(t: string)
    requires SymbolFree(t) && t != [] && !IsSpace(t[|t| - 1])
    ensures CleanCurrency("usd" + t) == DropSeparators(t)
  {
    StripJoined("usd", t);
    UsdLowerPrefixRemoved(t);
    CleanCurrencyOf("usd" + t, t);
  }

  /** A leading `usd ` is dropped: `usd 10` is read as `10`. */
  lemma CleanCurrencyUsdLower(p: string)
    requires IsPlainAmount(p) && p != []
    ensures CleanCurrency("usd" + ([' '] + p)) == p
  {
    var t := [' '] + p;
    PlainChars(p);
    assert SymbolFree(t) && t[|t| - 1] == p[|p| - 1] by {
      assert SymbolFree([' ']) && SymbolFree(p);
      SymbolFreeAppend([' '], p);
    }
    CleanCurrencyUsdLowerText(t);
    DropSeparatorsAppend([' '], p);
    DropSeparatorsSingle(' ');
    DropSeparatorsPlain(p);
  }

  /** The amount `usd 10` reaches `float()` as `10`. */
  lemma CleanCurrencyUsdTen()
    ensures CleanCurrency("usd 10") == "10"
  {
    assert IsPlainAmount("10");
    CleanCurrencyUsdLower("10");
    assert "usd" + ([' '] + "10") == "usd 10";
  }
}
