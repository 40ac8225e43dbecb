/** What the protocol promises its users, read off the traced log. */
module SwapGuarantees {
  import opened Protocol
  import opened SwapNetwork
  import opened SwapMoves
  import opened SwapAccounting
  import opened SwapCorrespondence

  // ---------- no file without a file ----------

  /** Requested files the offerer of `key` wrote. */
  function FilesWritten(log: seq<Entry>, key: TradeKey): nat {
    if log == [] then 0
    else
      var e := log[|log| - 1];
      FilesWritten(log[..|log| - 1], key) + if e.Settled? && e.key == key then |e.written| else 0
  }

  /** Replies for `key` that carried the offered bytes. */
  function FilesReleased(log: seq<Entry>, key: TradeKey): nat {
    if log == [] then 0
    else
      var e := log[|log| - 1];
      FilesReleased(log[..|log| - 1], key) + One(e.Settled? && e.key == key && e.released.Some?)
  }

  lemma {:induction false} WritesMatchReleases(log: seq<Entry>, key: TradeKey)
    requires History(log)
    ensures FilesWritten(log, key) == FilesReleased(log, key) <= TallyOf(log, key).settled
    decreases |log|
  {
    if log != [] {
      WritesMatchReleases(log[..|log| - 1], key);
    }
  }

  /** For every key, however often it was offered, the bytes were released exactly
      as often as the file asked in return was written. */
  lemma NoFileWithoutAFile(n: Net, steps: seq<Step>, key: TradeKey)
    requires Init(n) && Legal(n, steps)
    ensures
      var log := After(n, steps).log;
      var t := TallyOf(log, key);
      FilesReleased(log, key) == FilesWritten(log, key) <= t.answered <= t.arrived <= t.offered
  {
    Reachable(n, steps);
    WritesMatchReleases(After(n, steps).log, key);
    ExactAccounting(n, steps, key);
  }

  // ---------- accepts and declines are told apart ----------

  lemma {:induction false} AnsweredOnce(log: seq<Entry>, i: nat, j: nat)
    requires History(log) && i < j < |log| && log[i].Answered? && log[j].Answered?
    ensures log[i].id != log[j].id
  {
    JustifiedAt(log, j);
    assert log[i] == log[..j][i];
  }

  lemma AnswerUnique(log: seq<Entry>, a: Entry, b: Entry)
    requires History(log) && a in log && b in log && a.Answered? && b.Answered? && a.id == b.id
    ensures a == b
  {
    var i :| 0 <= i < |log| && log[i] == a;
    var j :| 0 <= j < |log| && log[j] == b;
    if i < j {
      AnsweredOnce(log, i, j);
    } else if j < i {
      AnsweredOnce(log, j, i);
    }
  }

  /** A request that was an accept moves both files or reports a failure; one that
      was a decline moves neither, and nobody waits for its bytes. In particular
      an accept call never hears that it succeeded without bytes. */
  lemma AcceptDeclineFidelity(n: Net, steps: seq<Step>, key: TradeKey, id: RequestId, given: Option<Bytes>)
    requires Init(n) && Legal(n, steps)
    requires Answered(key, id, given) in After(n, steps).log
    ensures
      var m := After(n, steps);
      var j := SettledAt(m.log, id);
      var i := ToldAt(m.log, id);
      && (j.Some? ==> && m.log[j.value].key == key
                      && (m.log[j.value].written == [] <==> given.None?)
                      && (m.log[j.value].released.None? <==> given.None?))
      && (id in m.replies && m.replies[id].BytesReply? ==>
           (m.replies[id].reply.offeredFileBytes.Some? <==> given.Some?))
      && (Waiting(m, id) ==> given.Some?)
      && (i.Some? ==> given.Some? && m.log[i.value].heard != Ok(None))
  {
    Reachable(n, steps);
    var log := After(n, steps).log;
    var j := SettledAt(log, id);
    if j.Some? {
      JustifiedAt(log, j.value);
      var a := Answered(log[j.value].key, id, log[j.value].given);
      assert a in log[..j.value];
      assert a in log;
      AnswerUnique(log, a, Answered(key, id, given));
    }
    var i := ToldAt(log, id);
    if i.Some? {
      JustifiedAt(log, i.value);
      var a := AnswerAt(log[..i.value], id).value;
      assert log[a] in log && log[a] == log[..i.value][a];
      AnswerUnique(log, log[a], Answered(key, id, given));
    }
  }

  // ---------- one swap, in order ----------

  /** Nothing strictly between `lo` and `hi` concerns `key`. */
  predicate Quiet(log: seq<Entry>, key: TradeKey, lo: nat, hi: nat)
    requires hi <= |log|
  {
    forall k | lo < k < hi :: !About(log[k], key)
  }

  lemma {:induction false} LastAbout(log: seq<Entry>, key: TradeKey) returns (k: nat)
    requires PhaseOf(log, key) != Unoffered
    ensures k < |log| && About(log[k], key) && Quiet(log, key, k, |log|)
    ensures PhaseOf(log, key) == Advance(PhaseOf(log[..k], key), log[k], key)
    decreases |log|
  {
    var last := |log| - 1;
    k := last;
    if !About(log[last], key) {
      k := LastAbout(log[..last], key);
      assert log[..last][..k] == log[..k];
      forall i | k < i < |log| ensures !About(log[i], key) {
        if i < last { assert log[..last][i] == log[i]; }
      }
    }
  }

  lemma {:induction false} BrokenForever(log: seq<Entry>, key: TradeKey, k: nat)
    requires k <= |log| && PhaseOf(log[..k], key).Broken?
    ensures PhaseOf(log, key).Broken?
    decreases |log|
  {
    if k < |log| {
      assert log[..|log| - 1][..k] == log[..k];
      BrokenForever(log[..|log| - 1], key, k);
    } else {
      assert log[..k] == log;
    }
  }

  /** The offer, its arrival and its answer, in that order and with nothing else
      about `key` since the offer. */
  ghost predicate Round(log: seq<Entry>, key: TradeKey, h: nat, r: nat, a: nat, end: nat)
    requires end <= |log|
  {
    && h < r < a < end && log[h].Offered? && log[r].OfferArrived? && log[a].Answered?
    && About(log[h], key) && About(log[r], key) && About(log[a], key)
    && Quiet(log, key, h, r) && Quiet(log, key, r, a) && Quiet(log, key, a, end)
  }

  lemma ReplyingRound(log: seq<Entry>, key: TradeKey) returns (h: nat, r: nat, a: nat)
    requires PhaseOf(log, key).Replying?
    ensures Round(log, key, h, r, a, |log|)
  {
    a := LastAbout(log, key);
    r := LastAbout(log[..a], key);
    h := LastAbout(log[..a][..r], key);
    assert log[..a][..r] == log[..r];
    forall k | r < k < a ensures !About(log[k], key) { assert log[..a][k] == log[k]; }
    forall k | h < k < r ensures !About(log[k], key) { assert log[..r][k] == log[k]; }
  }

  lemma RoundInLog(log: seq<Entry>, key: TradeKey, j: nat) returns (h: nat, r: nat, a: nat)
    requires History(log) && TallyOf(log, key).replaced == 0 && !PhaseOf(log, key).Broken?
    requires j < |log| && log[j].Settled? && log[j].key == key
    ensures Round(log, key, h, r, a, j) && log[a] == Answered(key, log[j].id, log[j].given)
    ensures log[j].written == WrittenFor(log[h], log[j].given)
    ensures log[j].released == ReleasedFor(log[h], log[j].given)
  {
    var past := log[..j];
    if PhaseOf(log[..j + 1], key).Broken? { BrokenForever(log, key, j + 1); }
    assert log[..j + 1][..j] == past && log[..j + 1][j] == log[j];
    h, r, a := ReplyingRound(past, key);
    JustifiedAt(log, j);
    TallyMonotone(log, key, j);
    LatestInRound(past, key, h, r, a);
    var b := Answered(key, log[j].id, log[j].given);
    assert b in past && past[a] in past;
    assert forall e | e in past :: e in log;
    AnswerUnique(log, b, past[a]);
    assert past[h] == log[h] && past[r] == log[r] && past[a] == log[a];
    forall k | h < k < j && k != r && k != a ensures !About(log[k], key) { assert past[k] == log[k]; }
  }

  /** If `key` was never re-offered early, each of its settlements closes a round:
      the recipient saw the very offer that is settled and its answer is the one
      being delivered. */
  lemma PromptSwap(n: Net, steps: seq<Step>, key: TradeKey, j: nat) returns (h: nat, r: nat, a: nat)
    requires Init(n) && Legal(n, steps)
    requires TallyOf(After(n, steps).log, key).replaced == 0
    requires j < |After(n, steps).log| && After(n, steps).log[j].Settled? && After(n, steps).log[j].key == key
    ensures
      var log := After(n, steps).log;
      && Round(log, key, h, r, a, j)
      && log[a] == Answered(key, log[j].id, log[j].given)
      && log[j].written == WrittenFor(log[h], log[j].given)
      && log[j].released == ReleasedFor(log[h], log[j].given)
  {
    Reachable(n, steps);
    RefinesSingleTrade(n, steps, key);
    h, r, a := RoundInLog(After(n, steps).log, key, j);
  }

  lemma {:induction false} TallyMonotone(log: seq<Entry>, key: TradeKey, j: nat)
    requires j <= |log|
    ensures TallyOf(log[..j], key).replaced <= TallyOf(log, key).replaced
    decreases |log|
  {
    if j < |log| {
      assert log[..|log| - 1][..j] == log[..j];
      TallyMonotone(log[..|log| - 1], key, j);
    } else {
      assert log[..j] == log;
    }
  }

  lemma {:induction false} LatestInRound(log: seq<Entry>, key: TradeKey, h: nat, r: nat, a: nat)
    requires Round(log, key, h, r, a, |log|)
    ensures LastAnswer(log, key) == Some(a) && StandingOffer(log, key) == Some(h)
  {
    LatestFrom(log, key, a, |log|);
    OfferFrom(log, key, h, |log|);
    assert log[..|log|] == log;
  }

  lemma {:induction false} LatestFrom(log: seq<Entry>, key: TradeKey, a: nat, end: nat)
    requires a < end <= |log| && log[a].Answered? && log[a].key == key && Quiet(log, key, a, end)
    ensures LastAnswer(log[..end], key) == Some(a)
    decreases end
  {
    assert log[..end][..end - 1] == log[..end - 1];
    if a < end - 1 { LatestFrom(log, key, a, end - 1); }
  }

  lemma {:induction false} OfferFrom(log: seq<Entry>, key: TradeKey, h: nat, end: nat)
    requires h < end <= |log| && log[h].Offered? && log[h].key == key && Undisturbed(log, key, h, end)
    ensures StandingOffer(log[..end], key) == Some(h)
    decreases end
  {
    assert log[..end][..end - 1] == log[..end - 1];
    if h < end - 1 { OfferFrom(log, key, h, end - 1); }
  }
}
