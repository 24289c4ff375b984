/** Numbered events, the bounded per-task log, and the streams cut from them. */
module Events {
  import opened Types
  import opened Sequences

  const EVENT_LOG_CAPACITY: nat := 256

  datatype SeqEvent = SeqEvent(seqNo: nat, evt: StreamResponse)

  const ItemCloses := (e: SeqEvent) => e.evt.ClosesStream()

  /** The last `EVENT_LOG_CAPACITY` entries. */
  function Tail(s: seq<SeqEvent>): seq<SeqEvent> {
    if |s| <= EVENT_LOG_CAPACITY then s else s[|s| - EVENT_LOG_CAPACITY..]
  }

  /** Append, then drop the oldest entry if the log became too long. */
  function Pushed(log: seq<SeqEvent>, e: SeqEvent): seq<SeqEvent> {
    var longer := log + [e];
    if |longer| > EVENT_LOG_CAPACITY then longer[1..] else longer
  }

  /** A bounded log stays the tail of everything ever appended to it. */
  lemma PushedTail(all: seq<SeqEvent>, e: SeqEvent)
    ensures Pushed(Tail(all), e) == Tail(all + [e])
  {
  }

  /** The same, entry by entry: the oldest go until the rest fits. */
  function Latest(s: seq<SeqEvent>): (r: seq<SeqEvent>)
    ensures |r| <= EVENT_LOG_CAPACITY
  {
    if |s| <= EVENT_LOG_CAPACITY then s else Latest(s[1..])
  }

  lemma {:induction false} LatestIsTail(s: seq<SeqEvent>)
    ensures Latest(s) == Tail(s)
  {
    if |s| > EVENT_LOG_CAPACITY {
      LatestIsTail(s[1..]);
    }
  }

  lemma PushedLatest(all: seq<SeqEvent>, e: SeqEvent)
    ensures Pushed(Latest(all), e) == Latest(all + [e])
  {
    PushedTail(all, e);
    LatestIsTail(all);
    LatestIsTail(all + [e]);
  }

  predicate Increasing(s: seq<SeqEvent>) {
    forall i, j | 0 <= i < j < |s| :: s[i].seqNo < s[j].seqNo
  }

  function Payloads(s: seq<SeqEvent>): seq<StreamResponse> {
    seq(|s|, i requires 0 <= i < |s| => s[i].evt)
  }

  lemma PayloadsSnoc(s: seq<SeqEvent>, e: SeqEvent)
    ensures Payloads(s + [e]) == Payloads(s) + [e.evt]
  {
  }

  function PastId(since: Option<nat>): SeqEvent -> bool {
    (e: SeqEvent) => since.Some? ==> e.seqNo > since.value
  }

  lemma SuffixSnoc(s: seq<SeqEvent>, k: nat)
    requires k < |s|
    ensures s[k..] == s[..|s| - 1][k..] + [s[|s| - 1]]
  {
  }

  /** In an increasing log, what is past an id is a suffix. */
  lemma {:induction false} PastIsSuffix(s: seq<SeqEvent>, since: Option<nat>)
    requires Increasing(s)
    ensures var k := |s| - |Filter(s, PastId(since))|;
            && Filter(s, PastId(since)) == s[k..]
            && (forall i | 0 <= i < k :: !PastId(since)(s[i]))
            && (forall i | k <= i < |s| :: PastId(since)(s[i]))
  {
    if s != [] {
      var init, last := s[..|s| - 1], s[|s| - 1];
      PastIsSuffix(init, since);
      var k := |init| - |Filter(init, PastId(since))|;
      if PastId(since)(last) {
        SuffixSnoc(s, k);
      } else {
        forall i | 0 <= i < |init| ensures !PastId(since)(init[i]) {
          assert s[i].seqNo < last.seqNo;
        }
        assert k == |init|;
      }
    }
  }

  lemma PastInTwo(a: seq<SeqEvent>, b: seq<SeqEvent>, since: Option<nat>)
    requires NoneStops(a, PastId(since))
    requires forall i | 0 <= i < |b| :: PastId(since)(b[i])
    ensures Filter(a + b, PastId(since)) == b
  {
    FilterConcat(a, b, PastId(since));
    FilterNone(a, PastId(since));
    FilterAll(b, PastId(since));
  }

  lemma PastStartsAt(s: seq<SeqEvent>, since: Option<nat>, j: nat)
    requires j <= |s|
    requires forall i | 0 <= i < j :: !PastId(since)(s[i])
    requires forall i | j <= i < |s| :: PastId(since)(s[i])
    ensures Filter(s, PastId(since)) == s[j..]
  {
    PastInTwo(s[..j], s[j..], since);
    assert s[..j] + s[j..] == s;
  }

  lemma PastInTail(all: seq<SeqEvent>, i: nat)
    requires Increasing(all) && i < |all| && |all| - (i + 1) <= EVENT_LOG_CAPACITY
    ensures Filter(Tail(all), PastId(Some(all[i].seqNo))) == all[i + 1..]
  {
    var log, since := Tail(all), Some(all[i].seqNo);
    var cut := |all| - |log|;
    var j := i + 1 - cut;
    assert log == all[cut..];
    forall k | 0 <= k < j ensures !PastId(since)(log[k]) {
      assert log[k] == all[cut + k];
    }
    forall k | j <= k < |log| ensures PastId(since)(log[k]) {
      assert log[k] == all[cut + k];
    }
    PastStartsAt(log, since, j);
    assert log[j..] == all[i + 1..];
  }

  /** The log still holds everything that came after an event exactly when no more
      than its capacity has come since. */
  lemma LogHoldsAllSince(all: seq<SeqEvent>, i: nat)
    requires Increasing(all) && i < |all|
    ensures Filter(Tail(all), PastId(Some(all[i].seqNo))) == all[i + 1..] <==> |all| - (i + 1) <= 256
  {
    if |all| - (i + 1) <= EVENT_LOG_CAPACITY {
      PastInTail(all, i);
    }
  }
}
