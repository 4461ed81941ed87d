/** The gateway's side of the outbox: what it accepts from a relay, and the loop
    that exports a whole quarantine page by page. */
module QuarantineExport {
  import opened Wrappers
  import opened OutboxSpec
  import opened OutboxRuns
  import opened OutboxProofs
  import opened OutboxTheorems

  /** The length of an identifier's text. */
  function IdLength(id: Ident): nat {
    match id
    case Uuid(_, Simple, _) => 32
    case Uuid(_, Hyphenated, _) => 36
    case Uuid(_, Braced, _) => 38
    case Uuid(_, Urn, _) => 45
    case Text(text) => |text|
  }

  predicate GatewayAccepts(e: Event) {
    && 0 < IdLength(e.id) <= 64
    && 8 <= |e.uuid| <= 128
    && (e.status.Active? || e.status.Closed?)
    && e.reason.CredentialRotated?
  }

  // ---------- delivery status ----------

  predicate Timely(v: DeliveryStatus, limit: nat) {
    v.oldestAt <= limit && forall e :: e in v.sample ==> e.createdAt <= limit
  }

  predicate WellFormed(v: DeliveryStatus) {
    && v.capacity == 4096
    && v.pending <= 4096 && v.quarantined <= 4096 && v.reserved <= 4096
    && v.pending + v.quarantined + v.reserved <= 4096
    && |v.sample| <= 5 && |v.sample| <= v.quarantined
    && forall e :: e in v.sample ==> GatewayAccepts(e)
  }

  /** `limit` is the gateway's clock plus five minutes; a missing report is fine. */
  method Valid(report: Option<DeliveryStatus>, limit: nat) returns (ok: bool)
    ensures ok <==> report.Some? ==> WellFormed(report.value) && Timely(report.value, limit)
    ensures ok && report.Some? ==>
              var v := report.value;
              && v.capacity == 4096 && v.pending + v.quarantined + v.reserved <= 4096
              && |v.sample| <= 5 && |v.sample| <= v.quarantined && v.oldestAt <= limit
              && forall e :: e in v.sample ==>
                   && 0 < IdLength(e.id) <= 64 && 8 <= |e.uuid| <= 128 && (e.status.Active? || e.status.Closed?)
                   && e.reason == CredentialRotated && e.createdAt <= limit
  {
    if report.None? {
      return true;
    }
    var v := report.value;
    if v.capacity != 4096 || v.pending > 4096 || v.quarantined > 4096 || v.reserved > 4096
       || v.pending + v.quarantined + v.reserved > 4096 || |v.sample| > 5 || |v.sample| > v.quarantined || v.oldestAt > limit {
      return false;
    }
    for i := 0 to |v.sample|
      invariant forall k :: 0 <= k < i ==> GatewayAccepts(v.sample[k]) && v.sample[k].createdAt <= limit
    {
      if !GatewayAccepts(v.sample[i]) || v.sample[i].createdAt > limit {
        assert v.sample[i] in v.sample;
        return false;
      }
    }
    return true;
  }

  lemma QuarantineOkAccepted(q: seq<Event>, used: set<Ident>)
    requires QuarantineOk(q, used)
    ensures forall e :: e in q ==> GatewayAccepts(e)
  {
  }

  /** The gateway accepts every event a running outbox holds in quarantine. */
  lemma QuarantineAccepted(w: World, before: seq<Step>)
    requires Reachable(w, before) && w.up
    ensures Size(w.st.mem) <= 4096 && forall e :: e in w.st.mem.quarantine ==> GatewayAccepts(e)
  {
    ReachableInv(w, before);
    QuarantineOkAccepted(w.st.mem.quarantine, w.used);
  }

  lemma SummaryOfGood(st: State)
    requires Size(st.mem) <= 4096 && forall e :: e in st.mem.quarantine ==> GatewayAccepts(e)
    ensures WellFormed(Summary(st))
  {
    forall e | e in Summary(st).sample ensures GatewayAccepts(e) {
      assert e in st.mem.quarantine;
    }
  }

  /** Every status a running outbox reports is well formed for the gateway. */
  lemma SummaryAccepted(w: World, before: seq<Step>)
    requires Reachable(w, before) && w.up
    ensures WellFormed(Summary(w.st))
  {
    QuarantineAccepted(w, before);
    SummaryOfGood(w.st);
  }

  // ---------- pages ----------

  /** What one request meets: nothing, or a relay in some state. */
  datatype View = Unreachable | Serving(snapshot: Snapshot)

  predicate PageAccepted(page: Page, revision: Ident, offset: nat) {
    && IsUuid(page.revision)
    && (revision != Text("") ==> page.revision == revision)
    && page.total <= 4096
    && page.offset == offset
    && |page.events| <= 10
    && |page.events| == (if 10 <= page.total - offset then 10 else page.total - offset)
    && forall e :: e in page.events ==> GatewayAccepts(e)
  }

  function Fetched(view: View, revision: Ident, offset: nat): Option<Page> {
    if offset > 4096 || view.Unreachable? then None
    else match QuarantinePage(view.snapshot, revision, offset)
      case Err(_) => None
      case Ok(page) => if PageAccepted(page, revision, offset) then Some(page) else None
  }

  /** One "list" request through the gateway, with its checks on the reply. */
  method Fetch(view: View, revision: Ident, offset: nat) returns (r: Option<Page>)
    ensures r == Fetched(view, revision, offset)
  {
    if offset > 4096 || view.Unreachable? {
      return None;
    }
    var reply := QuarantinePage(view.snapshot, revision, offset);
    if reply.Err? {
      return None;
    }
    var page := reply.value;
    if !IsUuid(page.revision) || (revision != Text("") && page.revision != revision) {
      return None;
    }
    var expected: int := page.total - offset;
    if expected > 10 {
      expected := 10;
    }
    if page.total > 4096 || page.offset != offset || |page.events| > 10 || |page.events| != expected {
      return None;
    }
    for i := 0 to |page.events|
      invariant forall k :: 0 <= k < i ==> GatewayAccepts(page.events[k])
    {
      if !GatewayAccepts(page.events[i]) {
        assert page.events[i] in page.events;
        return None;
      }
    }
    return Some(page);
  }

  /** Whatever state each request meets, a page is the next part of that state's quarantine. */
  lemma FetchedIsPart(view: View, revision: Ident, offset: nat)
    requires Fetched(view, revision, offset).Some?
    ensures var page := Fetched(view, revision, offset).value;
            && view.Serving? && offset <= |view.snapshot.quarantine| == page.total <= 4096
            && (revision != Text("") ==> view.snapshot.revision == revision)
            && offset + |page.events| <= page.total
            && page.events == view.snapshot.quarantine[offset..offset + |page.events|]
            && (offset < page.total ==> page.events != [])
            && |page.events| <= 10 && page.revision == view.snapshot.revision && page.revision.Uuid? && page.offset == offset
            && forall e :: e in page.events ==>
                 && 0 < IdLength(e.id) <= 64 && 8 <= |e.uuid| <= 128 && (e.status.Active? || e.status.Closed?)
                 && e.reason == CredentialRotated
  {
  }

  ghost predicate Whole(view: View, revision: Ident, contents: seq<Event>) {
    view.Serving? && view.snapshot.revision == revision && view.snapshot.quarantine == contents
  }

  lemma WholeIsFetched(view: View, revision: Ident, contents: seq<Event>, offset: nat)
    requires Whole(view, revision, contents) && IsUuid(revision) && |contents| <= 4096 && offset <= |contents|
    requires forall e :: e in contents ==> GatewayAccepts(e)
    ensures Fetched(view, revision, offset).Some?
  {
  }

  /** The paging loop: `view(k)` is what the k-th request meets.

      If the requested revision stands for `contents` in every state met, a
      successful export is exactly `contents`; and it succeeds whenever every
      request meets the relay at that revision with at most 4096 acceptable
      events.  The loop needs no deadline to end. */
  method Export(revision: Ident, view: nat -> View, ghost contents: seq<Event>) returns (r: Option<seq<Event>>)
    requires IsUuid(revision)
    requires forall k :: view(k).Serving? && view(k).snapshot.revision == revision ==> view(k).snapshot.quarantine == contents
    ensures r.Some? ==> r.value == contents && exists k :: Whole(view(k), revision, contents)
    ensures |contents| <= 4096 && (forall e :: e in contents ==> GatewayAccepts(e)) && (forall k :: Whole(view(k), revision, contents)) ==> r.Some?
  {
    var events := [];
    var total: int := -1;
    var k := 0;
    while true
      invariant total == -1 ==> events == []
      invariant total != -1 ==> total == |contents| && |events| < total
      invariant |events| <= |contents| && events == contents[..|events|]
      decreases if total == -1 then 1 else 0, |contents| - |events|
    {
      if |contents| <= 4096 && (forall e :: e in contents ==> GatewayAccepts(e)) && Whole(view(k), revision, contents) {
        WholeIsFetched(view(k), revision, contents, |events|);
      }
      var page := Fetch(view(k), revision, |events|);
      if page.None? || (total >= 0 && page.value.total != total) {
        return None;
      }
      FetchedIsPart(view(k), revision, |events|);
      total := page.value.total;
      assert contents[..|events| + |page.value.events|] == contents[..|events|] + contents[|events|..|events| + |page.value.events|];
      events := events + page.value.events;
      assert Whole(view(k), revision, contents);
      if |events| == total {
        return Some(events);
      }
      k := k + 1;
    }
  }

  // ---------- the states met during one run ----------

  lemma {:induction false} RunConcat(w: World, a: seq<Step>, b: seq<Step>)
    requires ValidRun(w, a + b)
    ensures ValidRun(w, a) && ValidRun(Run(w, a), b)
    ensures Run(w, a + b) == Run(Run(w, a), b)
    decreases |a|
  {
    if a == [] {
      assert a + b == b;
    } else {
      var rest := a[1..];
      assert (a + b)[1..] == rest + b && (a + b)[0] == a[0];
      var v := Next(w, a[0]);
      assert ValidRun(v, rest + b);
      RunConcat(v, rest, b);
    }
  }

  lemma PrefixRuns(w: World, steps: seq<Step>, i: nat, j: nat)
    requires ValidRun(w, steps) && i <= j <= |steps|
    ensures ValidRun(w, steps[..i]) && ValidRun(w, steps[..j])
    ensures ValidRun(Run(w, steps[..i]), steps[i..j])
    ensures Run(w, steps[..j]) == Run(Run(w, steps[..i]), steps[i..j])
  {
    var first, mid, last := steps[..i], steps[i..j], steps[j..];
    assert steps == (first + mid) + last;
    RunConcat(w, first + mid, last);
    RunConcat(w, first, mid);
    assert steps[..j] == first + mid;
  }

  /** Any two moments of a run at the same revision show the same quarantine, and
      the gateway accepts its events: what `Export` asks of its views. */
  lemma SameRevisionSameContents(steps: seq<Step>, i: nat, j: nat)
    requires ValidRun(Fresh(), steps) && i <= j <= |steps|
    ensures ValidRun(Fresh(), steps[..i]) && ValidRun(Fresh(), steps[..j])
    ensures var v, w := Run(Fresh(), steps[..i]), Run(Fresh(), steps[..j]);
            v.up && w.up && v.st.mem.revision == w.st.mem.revision ==>
              && v.st.mem.quarantine == w.st.mem.quarantine
              && |v.st.mem.quarantine| <= 4096
              && forall e :: e in v.st.mem.quarantine ==> GatewayAccepts(e)
  {
    PrefixRuns(Fresh(), steps, i, j);
    var v, w := Run(Fresh(), steps[..i]), Run(Fresh(), steps[..j]);
    if v.up && w.up && v.st.mem.revision == w.st.mem.revision {
      QuarantineAccepted(v, steps[..i]);
      RevisionDetermines(v, steps[..i], steps[i..j], v.st.mem, w.st.mem);
    }
  }

  /** What the relay shows when a request arrives after `n` steps of a run, if it arrives. */
  ghost predicate Shows(view: View, steps: seq<Step>, n: nat)
    requires ValidRun(Fresh(), steps)
  {
    view.Serving? ==>
      && n <= |steps| && ValidRun(Fresh(), steps[..n])
      && Run(Fresh(), steps[..n]).up && view.snapshot == Run(Fresh(), steps[..n]).st.mem
  }

  lemma SameViews(steps: seq<Step>, a: View, i: nat, b: View, j: nat)
    requires ValidRun(Fresh(), steps) && Shows(a, steps, i) && Shows(b, steps, j)
    requires a.Serving? && b.Serving? && a.snapshot.revision == b.snapshot.revision
    ensures a.snapshot.quarantine == b.snapshot.quarantine && |a.snapshot.quarantine| <= 4096
    ensures forall e :: e in a.snapshot.quarantine ==> GatewayAccepts(e)
  {
    if i <= j {
      SameRevisionSameContents(steps, i, j);
    } else {
      SameRevisionSameContents(steps, j, i);
    }
  }

  /** The export against a relay that goes on running, crashing and reopening between the requests: a
      success is the quarantine the relay had at the requested revision, and it succeeds
      whenever every request meets the relay at that revision. */
  method ExportFromRun(revision: Ident, view: nat -> View, ghost steps: seq<Step>, ghost at: nat -> nat)
    returns (r: Option<seq<Event>>)
    requires IsUuid(revision) && ValidRun(Fresh(), steps)
    requires forall k :: Shows(view(k), steps, at(k))
    ensures r.Some? ==> exists k :: Whole(view(k), revision, r.value)
    ensures r.Some? ==>
              forall k :: view(k).Serving? && view(k).snapshot.revision == revision ==> view(k).snapshot.quarantine == r.value
    ensures (forall k :: view(k).Serving? && view(k).snapshot.revision == revision) ==> r.Some?
  {
    ghost var contents: seq<Event> := [];
    if k :| view(k).Serving? && view(k).snapshot.revision == revision {
      contents := view(k).snapshot.quarantine;
      forall j | view(j).Serving? && view(j).snapshot.revision == revision
        ensures view(j).snapshot.quarantine == contents && |contents| <= 4096 && forall e :: e in contents ==> GatewayAccepts(e)
      {
        SameViews(steps, view(k), at(k), view(j), at(j));
      }
    }
    r := Export(revision, view, contents);
  }
}
