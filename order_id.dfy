/**
 * `extract_order_id`: `re.search(r"\b(\d{4,12})\b", text)` and its group 1.
 *
 * `SearchFrom` follows what the regex engine does: it tries start positions
 * left to right; at each it checks `\b`, lets the greedy `\d{4,12}` take as
 * many digits as it can (at most 12) and backtracks one digit at a time
 * until the closing `\b` holds or fewer than 4 digits remain.
 *
 * `IsOrderIdRun` is the independent description: a run of 4 to 12 digits
 * whose neighbours, where they exist, are not word characters. The lemmas
 * show the engine returns exactly the leftmost such run.
 */
module OrderId {
  import opened Wrappers
  import opened Chars

  const MinLen: nat := 4
  const MaxLen: nat := 12

  function Min(a: int, b: int): int { if a < b then a else b }

  /** Nothing word-like ends at `j`: the run may stop here. */
  predicate RightEdge(text: string, j: int)
    requires 0 <= j <= |text|
  {
    j == |text| || !IsWord(text[j])
  }

  /** Nothing word-like ends right before `i`: a run may start here. */
  predicate LeftEdge(text: string, i: int)
    requires 0 <= i <= |text|
  {
    i == 0 || !IsWord(text[i - 1])
  }

  /** `text[i..j]` is a candidate order id: 4 to 12 digits with non-word neighbours. */
  predicate IsOrderIdRun(text: string, i: int, j: int) {
    && 0 <= i <= j <= |text|
    && MinLen <= j - i <= MaxLen
    && (forall k :: i <= k < j ==> IsDigit(text[k]))
    && LeftEdge(text, i)
    && RightEdge(text, j)
  }

  /** `text[i..j]` is the leftmost candidate: every other starts further right. */
  ghost predicate IsLeftmostRun(text: string, i: int, j: int) {
    && IsOrderIdRun(text, i, j)
    && forall i', j' :: IsOrderIdRun(text, i', j') ==> i < i' || (i == i' && j == j')
  }

  /** `re`'s `\b` at position `i`: a word character on exactly one side. */
  predicate IsBoundary(text: string, i: int)
    requires 0 <= i <= |text|
  {
    (0 < i && IsWord(text[i - 1])) != (i < |text| && IsWord(text[i]))
  }

  /** End of the run of digits that starts at `i`. */
  function DigitRunEnd(text: string, i: int): (j: int)
    requires 0 <= i <= |text|
    ensures i <= j <= |text|
    ensures forall k :: i <= k < j ==> IsDigit(text[k])
    ensures j == |text| || !IsDigit(text[j])
    decreases |text| - i
  {
    if i < |text| && IsDigit(text[i]) then DigitRunEnd(text, i + 1) else i
  }

  /** Greedy `\d{4,12}` then `\b`: having taken `len` digits at `i`, give
      them back one at a time until `\b` holds after them. */
  function Backtrack(text: string, i: int, len: int): Option<int>
    requires 0 <= i && 0 <= len && i + len <= |text|
    decreases len
  {
    if len < MinLen then None
    else if IsBoundary(text, i + len) then Some(i + len)
    else Backtrack(text, i, len - 1)
  }

  /** The whole pattern anchored at `i`; the end of the match, if any. */
  function MatchAt(text: string, i: int): Option<int>
    requires 0 <= i <= |text|
  {
    if !IsBoundary(text, i) then None
    else Backtrack(text, i, Min(MaxLen, DigitRunEnd(text, i) - i))
  }

  /** `re.search` from position `i` on: the first start that matches. */
  function SearchFrom(text: string, i: int): Option<(int, int)>
    requires 0 <= i <= |text|
    decreases |text| - i
  {
    match MatchAt(text, i)
    case Some(j) => Some((i, j))
    case None => if i == |text| then None else SearchFrom(text, i + 1)
  }

  /** Two candidate runs that start together end together. */
  lemma RunEndUnique(text: string, i: int, j1: int, j2: int)
    requires IsOrderIdRun(text, i, j1) && IsOrderIdRun(text, i, j2)
    ensures j1 == j2
  {
    InsideRunNoEdge(text, i, j1);
    InsideRunNoEdge(text, i, j2);
  }

  /** Inside a run of digits there is no right edge and no left edge: digits are word characters. */
  lemma InsideRunNoEdge(text: string, i: int, j: int)
    requires 0 <= i <= j <= |text|
    requires forall k :: i <= k < j ==> IsDigit(text[k])
    ensures forall k :: i <= k < j ==> !RightEdge(text, k)
    ensures forall k :: i < k <= j ==> !LeftEdge(text, k)
  {
    forall k | i <= k < j ensures !RightEdge(text, k) {
      DigitIsWord(text[k]);
    }
    forall k | i < k <= j ensures !LeftEdge(text, k) {
      DigitIsWord(text[k - 1]);
    }
  }

  /** A candidate run has `\b` at both of its ends. */
  lemma RunHasBoundaries(text: string, i: int, j: int)
    requires IsOrderIdRun(text, i, j)
    ensures IsBoundary(text, i) && IsBoundary(text, j)
  {
    DigitIsWord(text[i]);
    DigitIsWord(text[j - 1]);
  }

  /** Backtracking from `len` digits finds the longest length in `[4, len]`
      that is followed by a right edge. */
  lemma {:induction false} BacktrackFinds(text: string, i: int, len: int)
    requires 0 <= i && 0 <= len && i + len <= |text|
    requires forall k :: i <= k < i + len ==> IsDigit(text[k])
    ensures Backtrack(text, i, len).Some? ==>
              var j := Backtrack(text, i, len).value;
              i + MinLen <= j <= i + len && RightEdge(text, j)
    ensures forall j :: i + MinLen <= j <= i + len && RightEdge(text, j) ==>
              Backtrack(text, i, len).Some? && j <= Backtrack(text, i, len).value
    decreases len
  {
    if len >= MinLen {
      assert IsWord(text[i + len - 1]);
      if !IsBoundary(text, i + len) {
        BacktrackFinds(text, i, len - 1);
      }
    }
  }

  /** The pattern matches at `i` exactly when a candidate run starts at `i`, and it matches all of it. */
  lemma MatchAtIsRun(text: string, i: int)
    requires 0 <= i <= |text|
    ensures MatchAt(text, i).Some? ==> IsOrderIdRun(text, i, MatchAt(text, i).value)
    ensures forall j :: IsOrderIdRun(text, i, j) ==> MatchAt(text, i) == Some(j)
  {
    var e := DigitRunEnd(text, i);
    var n := Min(MaxLen, e - i);
    InsideRunNoEdge(text, i, e);
    forall j | IsOrderIdRun(text, i, j) ensures IsBoundary(text, i) {
      RunHasBoundaries(text, i, j);
    }
    if IsBoundary(text, i) {
      BacktrackFinds(text, i, n);
      if MatchAt(text, i).Some? {
        var j := MatchAt(text, i).value;
        assert IsDigit(text[i]);
        assert LeftEdge(text, i);
        assert IsOrderIdRun(text, i, j);
      }
      forall j | IsOrderIdRun(text, i, j) ensures MatchAt(text, i) == Some(j) {
        var m := Backtrack(text, i, n).value;
        assert IsOrderIdRun(text, i, m);
        RunEndUnique(text, i, j, m);
      }
    }
  }

  /** `re.search` returns the leftmost candidate run at or after `i`, or nothing if there is none. */
  lemma {:induction false} SearchFromLeftmost(text: string, i: int)
    requires 0 <= i <= |text|
    ensures SearchFrom(text, i).Some? ==>
              var (s, e) := SearchFrom(text, i).value;
              i <= s && IsOrderIdRun(text, s, e) &&
              forall s', e' :: i <= s' && IsOrderIdRun(text, s', e') ==> s < s' || (s == s' && e == e')
    ensures SearchFrom(text, i).None? ==> forall s', e' :: i <= s' ==> !IsOrderIdRun(text, s', e')
    decreases |text| - i
  {
    MatchAtIsRun(text, i);
    forall e' | IsOrderIdRun(text, i, e') ensures MatchAt(text, i) == Some(e') {}
    if MatchAt(text, i).None? && i < |text| {
      SearchFromLeftmost(text, i + 1);
    }
    if MatchAt(text, i).Some? {
      forall s', e' | i <= s' && IsOrderIdRun(text, s', e') && s' == i ensures e' == MatchAt(text, i).value {
        RunEndUnique(text, i, e', MatchAt(text, i).value);
      }
    }
  }

  /** An order id is 4 to 12 digits. */
  predicate IsOrderIdShape(id: string) {
    MinLen <= |id| <= MaxLen && forall k :: 0 <= k < |id| ==> IsDigit(id[k])
  }

  /** `extract_order_id`: group 1 of the first match, or `None`. Whatever
      it returns has the shape of an order id. */
  function ExtractOrderId(text: string): (r: Option<string>)
    ensures r.Some? ==> IsOrderIdShape(r.value)
  {
    SearchFromLeftmost(text, 0);
    match SearchFrom(text, 0)
    case Some((i, j)) =>
      assert forall k :: 0 <= k < j - i ==> text[i..j][k] == text[i + k];
      Some(text[i..j])
    case None => None
  }

  /** What `extract_order_id` returns, independently of how the regex
      engine searches: nothing exactly when there is no candidate run, and
      otherwise the digits of the leftmost one. */
  lemma ExtractOrderIdSpec(text: string)
    ensures ExtractOrderId(text).None? <==> forall i, j :: !IsOrderIdRun(text, i, j)
    ensures ExtractOrderId(text).Some? ==>
              exists i, j :: IsLeftmostRun(text, i, j) && ExtractOrderId(text).value == text[i..j]
  {
    SearchFromLeftmost(text, 0);
    if SearchFrom(text, 0).Some? {
      var (i, j) := SearchFrom(text, 0).value;
      assert IsLeftmostRun(text, i, j);
    }
  }

  /** Conversely, the leftmost candidate run is what gets extracted. */
  lemma ExtractLeftmost(text: string, i: int, j: int)
    requires IsLeftmostRun(text, i, j)
    ensures ExtractOrderId(text) == Some(text[i..j])
  {
    ExtractOrderIdSpec(text);
    var i', j' :| IsLeftmostRun(text, i', j') && ExtractOrderId(text).value == text[i'..j'];
  }

  /** A maximal digit run that is too short, too long, or glued to a
      letter, underscore or CJK character contributes no candidate: no
      candidate starts anywhere inside it, so no part of it is ever extracted. */
  lemma {:induction false} BadRunRejected(text: string, lo: int, hi: int)
    requires 0 <= lo < hi <= |text|
    requires forall k :: lo <= k < hi ==> IsDigit(text[k])
    requires lo == 0 || !IsDigit(text[lo - 1])
    requires hi == |text| || !IsDigit(text[hi])
    requires || hi - lo < MinLen
             || hi - lo > MaxLen
             || (lo > 0 && IsWord(text[lo - 1]))
             || (hi < |text| && IsWord(text[hi]))
    ensures forall i, j :: lo <= i < hi ==> !IsOrderIdRun(text, i, j)
  {
    InsideRunNoEdge(text, lo, hi);
    forall i, j | lo <= i < hi ensures !IsOrderIdRun(text, i, j) {
      if hi < j <= |text| {
        assert !IsDigit(text[hi]);
      }
    }
  }

  /** A bare number of 4 to 12 digits is its own order id. */
  lemma {:induction false} WholeNumberExtracted(text: string)
    requires MinLen <= |text| <= MaxLen
    requires forall k :: 0 <= k < |text| ==> IsDigit(text[k])
    ensures ExtractOrderId(text) == Some(text)
  {
    assert IsOrderIdRun(text, 0, |text|);
    forall i', j' | IsOrderIdRun(text, i', j') ensures 0 < i' || (0 == i' && |text| == j') {
      if i' == 0 {
        RunEndUnique(text, 0, |text|, j');
      }
    }
    ExtractLeftmost(text, 0, |text|);
    assert text[0..|text|] == text;
  }

  lemma ExtractBareNumber()
    ensures ExtractOrderId("123456") == Some("123456")
  {
    var t := "123456";
    forall k | 0 <= k < |t| ensures IsDigit(t[k]) {}
    WholeNumberExtracted(t);
  }

  /** Fullwidth punctuation is not a word character, so the id after it is found. */
  lemma ExtractAfterPunctuation()
    ensures ExtractOrderId("订单号：20240315") == Some("20240315")
  {
    var t := "订单号：20240315";
    assert IsOrderIdRun(t, 4, 12) by {
      forall k | 4 <= k < 12 ensures IsDigit(t[k]) {}
    }
    forall i', j' | 0 <= i' < 4 ensures !IsOrderIdRun(t, i', j') {
      assert !IsDigit(t[i']);
    }
    forall i', j' | IsOrderIdRun(t, i', j') ensures 4 < i' || (4 == i' && j' == 12) {
      if i' == 4 {
        RunEndUnique(t, 4, 12, j');
      }
    }
    ExtractLeftmost(t, 4, 12);
    assert t == "订单号：" + "20240315";
    assert t[4..12] == "20240315";
  }

  /** A CJK ideograph is a word character, so digits glued to one are not an id. */
  lemma ExtractGluedToIdeograph()
    ensures ExtractOrderId("订单123456") == None
  {
    var t := "订单123456";
    forall k | 2 <= k < 8 ensures IsDigit(t[k]) {}
    BadRunRejected(t, 2, 8);
    forall i, j ensures !IsOrderIdRun(t, i, j) {
      if 0 <= i < 2 {
        assert !IsDigit(t[i]);
      }
    }
    ExtractOrderIdSpec(t);
  }

  /** The katakana length mark `ー` is a word character too, so digits right
      after it are not an id. */
  lemma ExtractGluedToLengthMark()
    ensures ExtractOrderId("オーダー1234") == None
  {
    var t := "オーダー1234";
    forall k | 4 <= k < 8 ensures IsDigit(t[k]) {}
    BadRunRejected(t, 4, 8);
    forall i, j ensures !IsOrderIdRun(t, i, j) {
      if 0 <= i < 4 {
        assert !IsDigit(t[i]);
      }
    }
    ExtractOrderIdSpec(t);
  }

  /** Thirteen digits are too many, and no part of them is taken. */
  lemma ExtractTooLong()
    ensures ExtractOrderId("1234567890123") == None
  {
    var t := "1234567890123";
    forall k | 0 <= k < 13 ensures IsDigit(t[k]) {}
    BadRunRejected(t, 0, 13);
    ExtractOrderIdSpec(t);
  }

  lemma ExtractNoDigits()
    ensures ExtractOrderId("abc") == None
  {
    var t := "abc";
    forall i, j ensures !IsOrderIdRun(t, i, j) {
      if 0 <= i < 3 {
        assert !IsDigit(t[i]);
      }
    }
    ExtractOrderIdSpec(t);
  }
}
