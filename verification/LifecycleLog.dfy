/** The history that stories keep, tied to the durable log: thesis before outcome, on the file itself. */
module LifecycleLog {
  import opened Collections
  import opened AnchorBase
  import opened AnchorOutbox
  import opened OutboxRuns
  import opened Lifecycle
  import opened LifecycleUpdates
  import opened LifecycleHooks

  predicate Compacts(h: Happening) { h.Other? && h.event.Compact? }

  predicate NeverCompacts(hs: seq<Happening>) { forall i :: 0 <= i < |hs| ==> !Compacts(hs[i]) }

  /** Journal and log have grown by the same lines. */
  ghost predicate Appended(l: Books, l': Books, lines: seq<Line>) {
    l'.journal == l.journal + lines && l'.w.log == l.w.log + lines
  }

  lemma OutboxedAppends(l: Books, event: Event, c: Config)
    requires Inv(l.w) && !event.Compact?
    ensures Appended(l, Outboxed(l, event, c), LinesOf(MoveOf(l.w, event, c.maxAttempts), Now(event)))
  {
    if Moves(event) {
      MoveAppends(l.w, event, c.maxAttempts);
    } else {
      assert l.w.log + [] == l.w.log;
    }
  }

  /** The outbox event of a happening, if it has one. */
  ghost function EventOf(l: Books, h: Happening): Option<Event> {
    match h
    case Open(e) =>
      if !IsDossier(e) || e.metadata.signalId in l.signals || !Fresh(l.w, e) then None else Some(Enqueue(e))
    case Deliver(id, now, reply, _) => Some(Attempt(id, now, reply))
    case Resolve(s, id, createdAt, _) =>
      if Resolvable(l.index, s).None? || id in l.w.born then None
      else Some(Enqueue(UpdateEntry(id, s, Resolvable(l.index, s).value, createdAt)))
    case Other(event) => if event.Enqueue? || event.Attempt? then None else Some(event)
  }

  lemma HappenWrites(l: Books, h: Happening, c: Config)
    ensures var l1 := if EventOf(l, h).None? then l else Outboxed(l, EventOf(l, h).value, c);
            Happen(l, h, c).journal == l1.journal && Happen(l, h, c).w.log == l1.w.log
  {
  }

  lemma HappenAppends(l: Books, h: Happening, c: Config) returns (lines: seq<Line>)
    requires Inv(l.w) && !Compacts(h)
    ensures Appended(l, Happen(l, h, c), lines)
  {
    HappenWrites(l, h, c);
    if EventOf(l, h).None? {
      lines := [];
      assert l.journal + [] == l.journal && l.w.log + [] == l.w.log;
    } else {
      var event := EventOf(l, h).value;
      OutboxedAppends(l, event, c);
      lines := LinesOf(MoveOf(l.w, event, c.maxAttempts), Now(event));
    }
  }

  /** Between compactions the log grows by exactly what the journal grows by. */
  lemma {:induction false} StoryAppends(hs: seq<Happening>, more: seq<Happening>, c: Config) returns (lines: seq<Line>)
    requires NeverCompacts(more)
    ensures Appended(Story(hs, c), Story(hs + more, c), lines)
    decreases |more|
  {
    var l := Story(hs, c);
    if more == [] {
      lines := [];
      assert hs + more == hs && l.journal + [] == l.journal && l.w.log + [] == l.w.log;
    } else {
      var init, last := more[..|more| - 1], more[|more| - 1];
      var x := StoryAppends(hs, init, c);
      StoryIsSound(hs + init, c);
      var y := HappenAppends(Story(hs + init, c), last, c);
      StorySnoc(hs + init, last, c);
      InitAndLast(more);
      Reassociate(hs, init, [last]);
      Reassociate(l.journal, x, y);
      Reassociate(l.w.log, x, y);
      lines := x + y;
    }
  }

  /** Until a compaction the journal is the log. */
  lemma JournalIsTheLog(hs: seq<Happening>, c: Config)
    requires NeverCompacts(hs)
    ensures Story(hs, c).journal == Story(hs, c).w.log
  {
    var lines := StoryAppends([], hs, c);
    assert [] + hs == hs;
  }

  // ── every update, from the answer its dossier got ─────────────────────────

  /** The record p is where the answer in h put it. */
  predicate PutBy(p: Landing, h: Happening) {
    && h.Deliver? && h.reply.Accepted?
    && p.id == h.id && p.recordId == h.reply.result.recordId && p.index == h.reply.result.index
  }

  /** In this round a submission returns and is counted, for the entry with the round's id. */
  ghost predicate Returned(w: World, h: Happening, w': World) {
    h.Deliver? && h.id in w.box.pending.at
    && w'.returned == w.returned + multiset{w.box.pending.at[h.id].DedupeKey()}
  }

  lemma AnswerIsTheLanding(l: Books, h: Happening, c: Config, s: string)
    requires Sound(l) && LandsDossier(l, h, c, s)
    ensures s !in l.landed && s in Happen(l, h, c).landed && PutBy(Happen(l, h, c).landed[s], h)
  {
    var event := Attempt(h.id, h.now, h.reply);
    HappenLanded(l, h, c);
    LandingOf(l, event, c);
    LandingIsNew(l, event, c);
    LandMoveIsTheAnswer(l.w, event, c.maxAttempts);
  }

  lemma LandingReturns(l: Books, h: Happening, c: Config, s: string)
    requires Sound(l) && LandsDossier(l, h, c, s)
    ensures Returned(l.w, h, Happen(l, h, c).w)
  {
    var event := Attempt(h.id, h.now, h.reply);
    HappenWorld(l, h, c);
    LandMoveIsTheAnswer(l.w, event, c.maxAttempts);
    RestartKeepsReturned(!h.indexed, Step(l.w, event, c.maxAttempts), c.maxAttempts);
  }

  lemma RestartKeepsReturned(crashed: bool, w: World, maxAttempts: nat)
    ensures RestartedIf(crashed, w, maxAttempts).returned == w.returned
  {
  }

  lemma LandMoveIsTheAnswer(w: World, event: Event, maxAttempts: nat)
    requires Inv(w) && event.Attempt? && MoveOf(w, event, maxAttempts).Land?
    ensures var m := MoveOf(w, event, maxAttempts);
            && event.reply == Accepted(m.result) && m.entry.id == event.id
            && event.id in w.box.pending.at && w.box.pending.at[event.id] == m.entry
            && Step(w, event, maxAttempts).returned == w.returned + multiset{m.entry.DedupeKey()}
  {
    StepIsMove(w, event, maxAttempts);
  }

  /** The k-th happening is the delivery that put the record of s at p, its first landing. */
  ghost predicate LandsAt(hs: seq<Happening>, c: Config, s: string, k: nat, p: Landing) {
    && k < |hs| && s !in Story(hs[..k], c).landed && PutBy(p, hs[k])
    && Returned(Story(hs[..k], c).w, hs[k], Story(hs[..k + 1], c).w)
  }

  lemma LandsAtLonger(hs: seq<Happening>, n: nat, c: Config, s: string, k: nat, p: Landing)
    requires n <= |hs| && LandsAt(hs[..n], c, s, k, p)
    ensures LandsAt(hs, c, s, k, p)
  {
    assert hs[..n][..k] == hs[..k] && hs[..n][..k + 1] == hs[..k + 1];
  }

  lemma LandsAtLast(hs: seq<Happening>, c: Config, s: string)
    requires hs != [] && LandsDossier(Story(hs[..|hs| - 1], c), hs[|hs| - 1], c, s)
    ensures s in Story(hs, c).landed && LandsAt(hs, c, s, |hs| - 1, Story(hs, c).landed[s])
  {
    var n := |hs| - 1;
    StoryIsSound(hs[..n], c);
    AnswerIsTheLanding(Story(hs[..n], c), hs[n], c, s);
    LandingReturns(Story(hs[..n], c), hs[n], c, s);
    assert hs[..n + 1] == hs;
  }

  /** Where a record landed is what the backend answered, once, to the dossier's delivery. */
  lemma {:induction false} LandingHasItsDelivery(hs: seq<Happening>, c: Config, s: string) returns (k: nat)
    requires s in Story(hs, c).landed
    ensures LandsAt(hs, c, s, k, Story(hs, c).landed[s])
    decreases |hs|
  {
    var n := |hs| - 1;
    StoryIsSound(hs[..n], c);
    LandedAfter(Story(hs[..n], c), hs[n], c, s);
    if s in Story(hs[..n], c).landed {
      k := LandingHasItsDelivery(hs[..n], c, s);
      LandsAtLonger(hs, n, c, s, k, Story(hs[..n], c).landed[s]);
      LandingsStay(Story(hs[..n], c), hs[n], c);
    } else {
      LandsAtLast(hs, c, s);
      k := n;
    }
  }

  /** The update u names what d's delivery was answered with, in d's registry. */
  predicate Supersedes(u: Entry, d: Entry, r: AnchorResult) {
    && d.op == "add_record" && d.metadata.signalId == u.metadata.signalId
    && u.registry == d.registry && u.registryId == d.registryId
    && u.recordId == r.recordId && u.index == r.index && u.status == STATUS_SUPERSEDED
  }

  /**
   * Every update ever accepted supersedes what the backend itself assigned: a
   * delivery before it was answered with the very record id and version index
   * that the update carries, for the dossier of its signal, in its registry.
   */
  lemma UpdateCarriesItsAnchor(hs: seq<Happening>, c: Config, id: nat) returns (k: nat)
    requires id in Story(hs, c).w.born && Story(hs, c).w.born[id].op == "update_status"
    ensures var born := Story(hs, c).w.born;
            && k < |hs| && hs[k].Deliver? && hs[k].reply.Accepted? && hs[k].id in born
            && Supersedes(born[id], born[hs[k].id], hs[k].reply.result)
            && Returned(Story(hs[..k], c).w, hs[k], Story(hs[..k + 1], c).w)
    ensures id !in Story(hs[..k], c).w.born
  {
    StoryIsSound(hs, c);
    var u := Story(hs, c).w.born[id];
    UpdateHasItsKey(Story(hs, c), id);
    LandedDossier(Story(hs, c), u.metadata.signalId);
    k := LandingHasItsDelivery(hs, c, u.metadata.signalId);
    NotBornBefore(hs, c, id, k);
  }

  lemma NotBornBefore(hs: seq<Happening>, c: Config, id: nat, k: nat)
    requires k <= |hs| && id in Story(hs, c).w.born && IsUpdate(Story(hs, c).w.born[id])
    requires Story(hs, c).w.born[id].metadata.signalId !in Story(hs[..k], c).landed
    ensures id !in Story(hs[..k], c).w.born
  {
    StoryIsSound(hs[..k], c);
    assert hs[..k] + hs[k..] == hs;
    StoryBearsMore(hs[..k], hs[k..], c);
    NotYetBorn(Story(hs[..k], c), Story(hs, c).w.born[id]);
  }

  lemma {:induction false} StoryBearsMore(hs: seq<Happening>, more: seq<Happening>, c: Config)
    ensures BornGrows(Story(hs, c).w.born, Story(hs + more, c).w.born)
    decreases |more|
  {
    if more == [] {
      assert hs + more == hs;
    } else {
      var init, last := more[..|more| - 1], more[|more| - 1];
      StoryBearsMore(hs, init, c);
      HappenBearsMore(Story(hs + init, c), last, c);
      StorySnoc(hs + init, last, c);
      InitAndLast(more);
      Reassociate(hs, init, [last]);
      BornGrowsOn(Story(hs, c).w.born, Story(hs + init, c).w.born, Story(hs + more, c).w.born);
    }
  }

  lemma BornGrowsOn(a: map<nat, Entry>, b: map<nat, Entry>, born: map<nat, Entry>)
    requires BornGrows(a, b) && BornGrows(b, born)
    ensures BornGrows(a, born)
  {
  }

  lemma NotYetBorn(l: Books, u: Entry)
    requires Sound(l) && IsUpdate(u) && u.metadata.signalId !in l.landed
    ensures forall id :: id in l.w.born ==> l.w.born[id] != u
  {
  }

  /**
   * Thesis before outcome, on the file: every status update in the log comes
   * after a sent line of the same signal's dossier, names that dossier's
   * registry and the record id of that line, and with it the version index that
   * the delivery behind the line was answered with.
   */
  lemma LoggedUpdateFollowsItsThesis(hs: seq<Happening>, c: Config, i: nat) returns (j: nat, k: nat)
    requires NeverCompacts(hs)
    requires var log := Story(hs, c).w.log; i < |log| && log[i].Enqueued? && log[i].entry.op == "update_status"
    ensures var w := Story(hs, c).w;
            && j < i
            && w.log[j].Sent? && w.log[j].id.Uuid?
            && w.log[j].id.id in w.born
            && k < |hs| && hs[k].Deliver? && hs[k].reply.Accepted? && hs[k].id == w.log[j].id.id
            && hs[k].reply.result.recordId == w.log[j].recordId
            && Supersedes(w.log[i].entry, w.born[w.log[j].id.id], hs[k].reply.result)
  {
    JournalIsTheLog(hs, c);
    StoryIsSound(hs, c);
    j := ThesisBefore(Story(hs, c), i);
    k := LandingHasItsDelivery(hs, c, Story(hs, c).journal[i].entry.metadata.signalId);
    LineOfTheAnchor(Story(hs, c), i, j, hs[k]);
  }

  lemma LineOfTheAnchor(l: Books, i: nat, j: nat, h: Happening)
    requires Sound(l) && i < |l.journal| && j < |l.journal| && l.journal[i].Enqueued?
    requires IsUpdate(l.journal[i].entry) && l.journal[i].entry.metadata.signalId in l.landed
    requires var u, p := l.journal[i].entry, l.landed[l.journal[i].entry.metadata.signalId];
             Names(u, p) && IsThesisLine(l.journal[j], p) && PutBy(p, h)
    ensures l.journal[j].id.id in l.w.born && h.id == l.journal[j].id.id
    ensures h.reply.result.recordId == l.journal[j].recordId
    ensures Supersedes(l.journal[i].entry, l.w.born[h.id], h.reply.result)
  {
    LandedDossier(l, l.journal[i].entry.metadata.signalId);
  }
}
