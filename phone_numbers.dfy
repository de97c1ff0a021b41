/** Sender and recipient numbers: `replace(/[^\d]/g, '')` on the configured
    phone strings and `[toManager, toDealer].filter(Boolean)`. */
module PhoneNumbers {
  import opened Js

  /** `s.replace(/[^\d]/g, '')`: every character that is not an ASCII digit removed. */
  function StripNonDigits(s: string): (d: string)
    ensures |d| <= |s|
    ensures forall i :: 0 <= i < |d| ==> IsDigit(d[i])
  {
    if s == [] then [] else (if IsDigit(s[0]) then [s[0]] else []) + StripNonDigits(s[1..])
  }

  /** Stripping works piecewise, so it keeps the digits in their original order. */
  lemma {:induction false} StripNonDigitsAppend(s: string, t: string)
    ensures StripNonDigits(s + t) == StripNonDigits(s) + StripNonDigits(t)
  {
    if s == [] {
      assert s + t == t;
    } else {
      assert (s + t)[0] == s[0] && (s + t)[1..] == s[1..] + t;
      StripNonDigitsAppend(s[1..], t);
    }
  }

  /** Each position of `s` contributes its own character, if it is a digit,
      between what the positions before it and after it contribute. */
  lemma {:induction false} StripNonDigitsAt(s: string, i: nat)
    requires i < |s|
    ensures StripNonDigits(s) ==
      StripNonDigits(s[..i]) + (if IsDigit(s[i]) then [s[i]] else []) + StripNonDigits(s[i + 1..])
  {
    var pre, mid, post := s[..i], [s[i]], s[i + 1..];
    assert s == pre + (mid + post);
    StripNonDigitsAppend(pre, mid + post);
    StripNonDigitsAppend(mid, post);
    assert mid[1..] == [];
    assert StripNonDigits(mid) == (if IsDigit(s[i]) then [s[i]] else []) + StripNonDigits([]);
  }

  /** The strings that stripping leaves unchanged are exactly the digit strings. */
  lemma {:induction false} StripNonDigitsFixedPoints(s: string)
    ensures StripNonDigits(s) == s <==> forall i :: 0 <= i < |s| ==> IsDigit(s[i])
  {
    if s != [] && forall i :: 0 <= i < |s| ==> IsDigit(s[i]) {
      assert forall i :: 0 <= i < |s[1..]| ==> IsDigit(s[1..][i]);
      StripNonDigitsFixedPoints(s[1..]);
      assert [s[0]] + s[1..] == s;
    }
  }

  /** Stripping twice is stripping once. */
  lemma StripNonDigitsIdempotent(s: string)
    ensures StripNonDigits(StripNonDigits(s)) == StripNonDigits(s)
  {
    StripNonDigitsFixedPoints(StripNonDigits(s));
  }

  /** `xs.filter(Boolean)` on strings: the non-empty ones, in order. */
  function FilterNonEmpty(xs: seq<string>): (r: seq<string>)
    ensures |r| <= |xs|
    ensures forall x :: x in r <==> x in xs && x != ""
  {
    if xs == [] then []
    else (if xs[0] != "" then [xs[0]] else []) + FilterNonEmpty(xs[1..])
  }

  /** Filtering a concatenation filters each part: `filter(Boolean)` keeps the
      non-empty strings in their order, each as often as it occurs. */
  lemma {:induction false} FilterNonEmptyAppend(xs: seq<string>, ys: seq<string>)
    ensures FilterNonEmpty(xs + ys) == FilterNonEmpty(xs) + FilterNonEmpty(ys)
  {
    if xs == [] {
      assert xs + ys == ys;
    } else {
      assert (xs + ys)[0] == xs[0] && (xs + ys)[1..] == xs[1..] + ys;
      FilterNonEmptyAppend(xs[1..], ys);
    }
  }

  /** A one-element list keeps its element exactly when it is not empty. */
  lemma FilterNonEmptySingleton(x: string)
    ensures FilterNonEmpty([x]) == (if x != "" then [x] else [])
  {
    assert [x][1..] == [];
  }

  /** `[toManager, toDealer].filter(Boolean)`. */
  function Recipients(manager: string, dealer: string): (r: seq<string>)
    ensures |r| <= 2
    ensures forall i :: 0 <= i < |r| ==> r[i] != ""
    ensures r == [] <==> manager == "" && dealer == ""
    ensures manager != "" ==> r[0] == manager
    ensures dealer != "" ==> r[|r| - 1] == dealer
    ensures manager != "" && dealer != "" ==> r == [manager, dealer]
    ensures |r| == (if manager != "" then 1 else 0) + (if dealer != "" then 1 else 0)
  {
    FilterNonEmptyAppend([manager], [dealer]);
    FilterNonEmptySingleton(manager);
    FilterNonEmptySingleton(dealer);
    assert [manager] + [dealer] == [manager, dealer];
    FilterNonEmpty([manager, dealer])
  }
}
