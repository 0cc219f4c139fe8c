// Matching field tokens against the user's BBCode template.
// A field is "matched" when its token occurs verbatim in the template; the
// screen lists the unmatched fields, then the matched ones, each in field
// order, and a matched field's token can be located and selected.
module TemplateMatch {
  import opened FormTypes

  /** `id` occurs in `text` starting at offset `i`. */
  ghost predicate OccursAt(text: string, id: string, i: int)
  {
    0 <= i && i + |id| <= |text| && text[i..i + |id|] == id
  }

  predicate StartsWith(text: string, id: string)
  {
    |id| <= |text| && text[..|id|] == id
  }

  /** String.prototype.includes, written as a left-to-right scan. */
  function Includes(text: string, id: string): bool
    decreases |text|
  {
    StartsWith(text, id) || (|text| > 0 && Includes(text[1..], id))
  }

  lemma OccursAtTail(text: string, id: string, i: int)
    requires |text| > 0 && 0 <= i
    ensures OccursAt(text[1..], id, i) <==> OccursAt(text, id, i + 1)
  {
    if i + 1 + |id| <= |text| {
      assert text[1..][i..i + |id|] == text[i + 1..i + 1 + |id|];
    }
  }

  /** The scan finds `id` exactly when `id` occurs somewhere in `text`. */
  lemma {:induction false} IncludesIff(text: string, id: string)
    ensures Includes(text, id) <==> exists i :: OccursAt(text, id, i)
    decreases |text|
  {
    if StartsWith(text, id) {
      assert OccursAt(text, id, 0);
    } else if |text| == 0 {
      assert forall i :: !OccursAt(text, id, i);
    } else {
      IncludesIff(text[1..], id);
      if Includes(text[1..], id) {
        var i :| OccursAt(text[1..], id, i);
        OccursAtTail(text, id, i);
      } else {
        forall i | OccursAt(text, id, i) ensures false {
          assert i != 0;
          OccursAtTail(text, id, i - 1);
        }
      }
    }
  }

  /**
   * String.prototype.indexOf: the first offset at which `id` occurs, or -1
   * when it does not occur at all.
   */
  function IndexOf(text: string, id: string): (r: int)
    decreases |text|
    ensures -1 <= r
    ensures r >= 0 ==> OccursAt(text, id, r)
    ensures forall j :: 0 <= j && (r == -1 || j < r) ==> !OccursAt(text, id, j)
  {
    if StartsWith(text, id) then 0
    else if |text| == 0 then -1
    else
      var k := IndexOf(text[1..], id);
      NoEarlierOccurrence(text, id, k);
      if k == -1 then -1
      else
        OccursAtTail(text, id, k);
        k + 1
  }

  /** No occurrence in the tail before `k` and none at 0: none in `text` before `k + 1`. */
  lemma NoEarlierOccurrence(text: string, id: string, k: int)
    requires |text| > 0 && !StartsWith(text, id)
    requires forall j :: 0 <= j && (k == -1 || j < k) ==> !OccursAt(text[1..], id, j)
    ensures forall j :: 0 <= j && (k == -1 || j < k + 1) ==> !OccursAt(text, id, j)
  {
    forall j | 0 <= j && (k == -1 || j < k + 1) ensures !OccursAt(text, id, j) {
      if j > 0 {
        OccursAtTail(text, id, j - 1);
      }
    }
  }

  /** The check behind both listings: the token occurs verbatim (case-sensitive) in the template. */
  function IsMatched(matchedBBCode: string, uniqueId: string): (r: bool)
    ensures r <==> exists i :: OccursAt(matchedBBCode, uniqueId, i)
  {
    IncludesIff(matchedBBCode, uniqueId);
    Includes(matchedBBCode, uniqueId)
  }

  /** Pasting a token anywhere into a template makes its field matched. */
  lemma InsertingTokenMatches(before: string, uniqueId: string, after: string)
    ensures IsMatched(before + uniqueId + after, uniqueId)
  {
    var text := before + uniqueId + after;
    assert text[|before|..|before| + |uniqueId|] == uniqueId;
    assert OccursAt(text, uniqueId, |before|);
  }

  /**
   * The fields shown under one heading: those whose matched state equals
   * `matched`, in the order of `fields` (`matched == false` is the
   * "Unmatched Fields" column, `true` the "Matched Fields" column).
   */
  function Listing(fields: seq<InputComponent>, matchedBBCode: string, matched: bool): (r: seq<InputComponent>)
    ensures |r| <= |fields|
    ensures forall c :: c in r <==> c in fields && IsMatched(matchedBBCode, c.uniqueId) == matched
  {
    if fields == [] then []
    else
      var rest := Listing(fields[1..], matchedBBCode, matched);
      assert forall c :: c in fields <==> c == fields[0] || c in fields[1..];
      if IsMatched(matchedBBCode, fields[0].uniqueId) == matched then [fields[0]] + rest else rest
  }

  /** Listing a concatenation lists each part in turn: the relative order of fields is kept. */
  lemma {:induction false} ListingConcat(a: seq<InputComponent>, b: seq<InputComponent>, matchedBBCode: string, matched: bool)
    ensures Listing(a + b, matchedBBCode, matched) == Listing(a, matchedBBCode, matched) + Listing(b, matchedBBCode, matched)
    decreases |a|
  {
    if a == [] {
      assert a + b == b;
    } else {
      assert (a + b)[1..] == a[1..] + b;
      ListingConcat(a[1..], b, matchedBBCode, matched);
    }
  }

  /** A single field is listed under exactly one of the two headings. */
  lemma ListingSingleton(c: InputComponent, matchedBBCode: string)
    ensures Listing([c], matchedBBCode, IsMatched(matchedBBCode, c.uniqueId)) == [c]
    ensures Listing([c], matchedBBCode, !IsMatched(matchedBBCode, c.uniqueId)) == []
  {
    assert [c][1..] == [];
  }

  /** The two listings together hold every field exactly as often as `fields` does. */
  lemma {:induction false} ListingsPartition(fields: seq<InputComponent>, matchedBBCode: string)
    ensures multiset(Listing(fields, matchedBBCode, false)) + multiset(Listing(fields, matchedBBCode, true)) == multiset(fields)
    ensures |Listing(fields, matchedBBCode, false)| + |Listing(fields, matchedBBCode, true)| == |fields|
  {
    if fields != [] {
      ListingsPartition(fields[1..], matchedBBCode);
      assert fields == [fields[0]] + fields[1..];
    }
    assert |multiset(Listing(fields, matchedBBCode, false))| == |Listing(fields, matchedBBCode, false)|;
    assert |multiset(Listing(fields, matchedBBCode, true))| == |Listing(fields, matchedBBCode, true)|;
  }

  /** A text selection `[start, end)`, as handed to `setSelectionRange`. */
  datatype Selection = Selection(start: int, end: int)

  /**
   * The selection made when a matched field's search button is pressed: the
   * first occurrence of the token. The button only exists on matched cards.
   */
  function Locate(matchedBBCode: string, uniqueId: string): (r: Selection)
    requires IsMatched(matchedBBCode, uniqueId)
    ensures 0 <= r.start && r.end == r.start + |uniqueId| <= |matchedBBCode|
    ensures matchedBBCode[r.start..r.end] == uniqueId
    ensures forall j :: 0 <= j < r.start ==> !OccursAt(matchedBBCode, uniqueId, j)
  {
    var startIndex := IndexOf(matchedBBCode, uniqueId);
    Selection(startIndex, startIndex + |uniqueId|)
  }
}
