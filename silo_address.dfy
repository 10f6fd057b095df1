/**
 * How the silo host picks the public address it advertises from the host's
 * own addresses: each address gets a score (lower is better), the first
 * address of each score goes into a list sorted by score, and the entry with
 * the lowest score wins. The DNS lookup is replaced by its result, a
 * sequence of addresses.
 */
module SiloAddress {
  import opened Wrappers

  /** One address of the host: whether it is IPv4, and its text form. */
  datatype Candidate = Candidate(isIPv4: bool, text: string)

  /** Why no address could be chosen: the host has none (First() on an empty list throws). */
  datatype SelectError = NoAddress

  const PrivatePrefix: string := "192.168."

  predicate StartsWith(s: string, prefix: string)
  {
    |prefix| <= |s| && s[..|prefix|] == prefix
  }

  /** Addresses in 192.168.0.0/16, recognised by their text. */
  predicate IsPrivate(c: Candidate)
  {
    StartsWith(c.text, PrivatePrefix)
  }

  /**
   * The score of an address: 1, plus 10 for IPv4 or 20 otherwise, plus 100
   * for a 192.168. address. The hundreds say private or not, the tens the
   * address family, so IPv4 beats IPv6 only among addresses equally private.
   */
  function Score(c: Candidate): (s: int)
    ensures s in {11, 21, 111, 121}
    ensures s < 100 <==> !IsPrivate(c)
    ensures s % 100 == 11 <==> c.isIPv4
  {
    var family := if c.isIPv4 then 10 else 20;
    var private := if IsPrivate(c) then 100 else 0;
    1 + family + private
  }

  // ----- The sorted list of candidates, keyed by score -----

  type Entry = (int, string)

  /** Keys strictly ascending, as in a sorted list with unique keys. */
  predicate Ascending(l: seq<Entry>)
  {
    forall i, j :: 0 <= i < j < |l| ==> l[i].0 < l[j].0
  }

  function Keys(l: seq<Entry>): set<int>
  {
    set e | e in l :: e.0
  }

  /** What an ascending list's head is to its tail. */
  lemma AscendingTail(l: seq<Entry>)
    requires Ascending(l) && l != []
    ensures Ascending(l[1..])
    ensures forall e :: e in l <==> e == l[0] || e in l[1..]
    ensures forall e :: e in l[1..] ==> l[0].0 < e.0
  {
    assert l == [l[0]] + l[1..];
    forall e | e in l[1..] ensures l[0].0 < e.0 {
      var j :| 0 <= j < |l[1..]| && l[1..][j] == e;
      assert l[j + 1] == e;
    }
  }

  /** Adds an entry under a key not yet present, keeping the keys in order. */
  function Insert(l: seq<Entry>, k: int, v: string): (r: seq<Entry>)
    requires Ascending(l)
    requires k !in Keys(l)
    ensures Ascending(r)
    ensures |r| == |l| + 1
    ensures forall e :: e in r <==> e in l || e == (k, v)
    ensures Keys(r) == Keys(l) + {k}
    decreases |l|
  {
    if l == [] then [(k, v)]
    else
      AscendingTail(l);
      assert l[0] in l;
      if k < l[0].0 then [(k, v)] + l
      else
        assert Keys(l[1..]) <= Keys(l);
        [l[0]] + Insert(l[1..], k, v)
  }

  // ----- The reference choice -----

  /** The address at `j` is the first of its score. */
  predicate FirstOfScore(a: seq<Candidate>, j: int)
    requires 0 <= j < |a|
  {
    forall k :: 0 <= k < j ==> Score(a[k]) != Score(a[j])
  }

  /** The earliest address of minimal score. */
  function BestIndex(a: seq<Candidate>): (b: nat)
    requires a != []
    ensures b < |a|
    ensures forall j :: 0 <= j < |a| ==> Score(a[b]) <= Score(a[j])
    ensures forall j :: 0 <= j < b ==> Score(a[j]) > Score(a[b])
    decreases |a|
  {
    if |a| == 1 then 0
    else
      var b := BestIndex(a[..|a| - 1]);
      assert forall j :: 0 <= j < |a| - 1 ==> a[..|a| - 1][j] == a[j];
      if Score(a[|a| - 1]) < Score(a[b]) then |a| - 1 else b
  }

  // ----- The selection loop -----

  /**
   * The loop over the host's addresses: it scores each one and adds it to
   * the sorted list unless an address of the same score is already there.
   * The list ends up holding exactly one entry per score that occurs, the
   * first address of that score.
   */
  method CollectCandidates(a: seq<Candidate>) returns (candidates: seq<Entry>)
    ensures Ascending(candidates)
    ensures forall j :: 0 <= j < |a| ==> Score(a[j]) in Keys(candidates)
    ensures forall e :: e in candidates ==>
      exists j :: 0 <= j < |a| && FirstOfScore(a, j) && e == (Score(a[j]), a[j].text)
  {
    candidates := [];
    var i := 0;
    while i < |a|
      invariant 0 <= i <= |a|
      invariant Ascending(candidates)
      invariant forall j :: 0 <= j < i ==> Score(a[j]) in Keys(candidates)
      invariant forall e :: e in candidates ==>
        exists j :: 0 <= j < i && FirstOfScore(a, j) && e == (Score(a[j]), a[j].text)
    {
      var score := Score(a[i]);
      if score !in Keys(candidates) {
        assert FirstOfScore(a, i) by {
          forall k | 0 <= k < i ensures Score(a[k]) != score {
            assert Score(a[k]) in Keys(candidates);
          }
        }
        candidates := Insert(candidates, score, a[i].text);
      }
      i := i + 1;
    }
  }

  /**
   * The public address: the text of the first entry of the sorted list, so
   * the earliest address of minimal score; no address is an error.
   */
  method SelectPublicAddress(a: seq<Candidate>) returns (r: Result<string, SelectError>)
    ensures a == [] <==> r == Failure(NoAddress)
    ensures a != [] ==> r == Success(a[BestIndex(a)].text)
  {
    var candidates := CollectCandidates(a);
    assert a != [] ==> Score(a[0]) in Keys(candidates);
    if |candidates| == 0 {
      r := Failure(NoAddress);
    } else {
      var first := candidates[0];
      assert first in candidates;
      var j :| 0 <= j < |a| && FirstOfScore(a, j) && first == (Score(a[j]), a[j].text);
      // The first entry has the least key, so its address has minimal score.
      forall k | 0 <= k < |a| ensures Score(a[j]) <= Score(a[k]) {
        var e :| e in candidates && e.0 == Score(a[k]);
        var n :| 0 <= n < |candidates| && candidates[n] == e;
        assert n == 0 || candidates[0].0 < candidates[n].0;
      }
      var b := BestIndex(a);
      var best, chosen := Score(a[b]), Score(a[j]);
      // The earliest address of minimal score is unique.
      assert j < b ==> chosen > best;
      assert b < j ==> best != chosen;
      r := Success(first.1);
    }
  }

  /**
   * The preference this ranking encodes: if the host has an IPv4 address
   * outside 192.168., the chosen one is such an address, so every 192.168.
   * address loses to it.
   */
  lemma PublicIPv4Wins(a: seq<Candidate>, i: nat)
    requires i < |a| && a[i].isIPv4 && !IsPrivate(a[i])
    ensures a[BestIndex(a)].isIPv4 && !IsPrivate(a[BestIndex(a)])
    ensures forall j :: 0 <= j < |a| && IsPrivate(a[j]) ==> BestIndex(a) != j
  {
    assert Score(a[i]) == 11;
  }

  /** Ties go to the earlier address: a later address of the best score is never chosen. */
  lemma EarliestOfBestScoreWins(a: seq<Candidate>, i: nat, j: nat)
    requires i < j < |a| && Score(a[i]) == Score(a[j])
    ensures BestIndex(a) != j
  {
  }
}
