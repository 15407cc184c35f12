/**
 * The inline-button payloads of a staged rendering and how the button
 * handler reads them back.  The Allow button carries `"allow:" + text`;
 * the handler recognises it by prefix and recovers the text with Python's
 * `data.split("allow:")[1]`, which stops at the next `"allow:"` in the text.
 */
module Callback {
  import opened Wrappers

  /** Tag that starts the Allow button's callback data. */
  const AllowTag: string := "allow:"
  /** Callback data of the Reject button. */
  const RejectTag: string := "reject"

  /** `sep` occurs in `s` starting at index `i`. */
  predicate OccursAt(s: string, sep: string, i: int) {
    0 <= i && i + |sep| <= |s| && s[i..i + |sep|] == sep
  }

  ghost predicate Contains(s: string, sep: string) {
    exists i :: OccursAt(s, sep, i)
  }

  /** `i` is the leftmost occurrence of `sep` in `s`. */
  ghost predicate FirstOccurrence(s: string, sep: string, i: int) {
    OccursAt(s, sep, i) && forall j :: 0 <= j < i ==> !OccursAt(s, sep, j)
  }

  /** Leftmost occurrence of `sep` in `s` at or after index `from` (Python's `str.find`). */
  function Find(s: string, sep: string, from: nat): (r: Option<nat>)
    ensures r.Some? ==> from <= r.value && OccursAt(s, sep, r.value)
    ensures r.Some? ==> forall j :: from <= j < r.value ==> !OccursAt(s, sep, j)
    ensures r.None? ==> forall j :: from <= j ==> !OccursAt(s, sep, j)
    decreases |s| - from
  {
    if from + |sep| > |s| then None
    else if s[from..from + |sep|] == sep then Some(from)
    else Find(s, sep, from + 1)
  }

  /** An occurrence inside a slice is an occurrence in the whole string. */
  lemma OccursInSlice(s: string, sep: string, a: nat, b: nat, k: int)
    requires a <= b <= |s|
    requires OccursAt(s[a..b], sep, k)
    ensures OccursAt(s, sep, a + k)
  {
    var slice := s[a..b];
    assert forall t :: k <= t < k + |sep| ==> slice[t] == s[a + t];
    assert slice[k..k + |sep|] == s[a + k..a + k + |sep|];
  }

  /** A slice that lies between two occurrences found by `Find` contains no separator. */
  lemma NoSepInSlice(s: string, sep: string, a: nat, b: nat)
    requires sep != [] && a <= b <= |s|
    requires forall j :: a <= j < b ==> !OccursAt(s, sep, j)
    ensures !Contains(s[a..b], sep)
  {
    forall k | OccursAt(s[a..b], sep, k)
      ensures false
    {
      OccursInSlice(s, sep, a, b, k);
    }
  }

  /**
   * Python's `s.split(sep)[1]`: the text between the first occurrence of
   * `sep` and the next one (or the end of `s`).  `None` stands for the
   * IndexError raised when `sep` does not occur at all.  Python refuses an
   * empty separator, hence the precondition.
   */
  function SecondField(s: string, sep: string): (r: Option<string>)
    requires sep != []
    ensures r.Some? <==> Contains(s, sep)
    ensures r.Some? ==> !Contains(r.value, sep)
    ensures r.Some? ==> exists i :: FirstOccurrence(s, sep, i) && Delimits(s, sep, i + |sep|, r.value) &&
                                    forall j :: i + |sep| <= j < i + |sep| + |r.value| ==> !OccursAt(s, sep, j)
  {
    match Find(s, sep, 0)
    case None => None
    case Some(i) =>
      assert FirstOccurrence(s, sep, i);
      var start := i + |sep|;
      match Find(s, sep, start)
      case None =>
        NoSepInSlice(s, sep, start, |s|);
        assert s[start..] == s[start..|s|];
        Some(s[start..])
      case Some(j) =>
        NoSepInSlice(s, sep, start, j);
        Some(s[start..j])
  }

  /** `field` sits in `s` at `start` and is followed by `sep` or by the end of `s`. */
  predicate Delimits(s: string, sep: string, start: nat, field: string) {
    start + |field| <= |s| && s[start..start + |field|] == field &&
    (start + |field| == |s| || OccursAt(s, sep, start + |field|))
  }

  /** What a press of an inline button asks for. */
  datatype Decision = Approve(text: string) | Reject | Ignore

  /** Callback data of the Allow button for a staged text. */
  function AllowData(text: string): string {
    AllowTag + text
  }

  /**
   * The button handler's reading of the callback data: a prefix test for
   * `"allow:"` then `split("allow:")[1]`, an equality test for `"reject"`,
   * and nothing for anything else.
   */
  function Decide(data: string): (d: Decision)
    ensures d.Approve? <==> AllowTag <= data
    ensures d.Reject? <==> data == RejectTag
    ensures d.Approve? ==> Delimits(data, AllowTag, |AllowTag|, d.text) && !Contains(d.text, AllowTag)
  {
    if AllowTag <= data then
      assert FirstOccurrence(data, AllowTag, 0);
      assert data[0] == 'a' != RejectTag[0];
      Approve(SecondField(data, AllowTag).value)
    else if data == RejectTag then Reject
    else Ignore
  }

  /**
   * The text staged by the intake handler comes back out of the Allow
   * button unchanged exactly when it does not itself contain `"allow:"`;
   * otherwise the split cuts it short.
   */
  lemma {:induction false} AllowDataRoundTrip(text: string)
    ensures Decide(AllowData(text)) == Approve(text) <==> !Contains(text, AllowTag)
  {
    var data := AllowData(text);
    var d := Decide(data);
    assert AllowTag <= data;
    if !Contains(text, AllowTag) && d.text != text {
      var k := |d.text|;
      assert data[|AllowTag|..] == text;
      assert text[..k] == d.text;
      assert k < |text|;
      assert OccursAt(data, AllowTag, |AllowTag| + k);
      assert data[|AllowTag| + k..|AllowTag| + k + |AllowTag|] == text[k..k + |AllowTag|];
      assert OccursAt(text, AllowTag, k);
    }
  }

  /** Two occurrences of `"allow:"` never overlap: the tag has no proper border. */
  lemma AllowTagApart(s: string, p: int, q: int)
    requires OccursAt(s, AllowTag, p) && OccursAt(s, AllowTag, q) && p < q
    ensures p + |AllowTag| <= q
  {
    assert s[q] == s[q..q + |AllowTag|][0] == AllowTag[0];
    assert forall k :: 0 < k < |AllowTag| ==> AllowTag[k] != AllowTag[0];
    assert forall i :: p <= i < p + |AllowTag| ==> s[i] == AllowTag[i - p];
  }

  /** A shorter field cannot be delimited where a longer one is, unless the longer one contains the tag. */
  lemma ShorterFieldContainsTag(s: string, start: nat, short: string, long: string)
    requires Delimits(s, AllowTag, start, short) && Delimits(s, AllowTag, start, long)
    requires |short| < |long|
    ensures Contains(long, AllowTag)
  {
    var p, q := start + |short|, start + |long|;
    assert OccursAt(s, AllowTag, p);
    if p + |AllowTag| <= q {
      assert forall i :: 0 <= i < |long| ==> long[i] == s[start + i];
      assert long[|short|..|short| + |AllowTag|] == s[p..p + |AllowTag|];
      assert OccursAt(long, AllowTag, |short|);
    } else {
      AllowTagApart(s, p, q);
    }
  }

  /**
   * The postconditions of `Decide` pin its result down: any text that sits
   * right after the leading `"allow:"`, is followed by another `"allow:"` or
   * by the end, and holds no `"allow:"` of its own is the decided text.
   */
  lemma DecideUnique(data: string, text: string)
    requires AllowTag <= data
    requires Delimits(data, AllowTag, |AllowTag|, text) && !Contains(text, AllowTag)
    ensures Decide(data) == Approve(text)
  {
    var d := Decide(data).text;
    if |d| < |text| {
      ShorterFieldContainsTag(data, |AllowTag|, d, text);
    } else if |text| < |d| {
      ShorterFieldContainsTag(data, |AllowTag|, text, d);
    }
  }
}
