/** One run of the monitor (src/monitor.ts): for every enabled website,
    fetch it, compare the digest with the stored snapshot, save a new
    snapshot on a change or a first run and notify; on a failure, count the
    error on the stored snapshot and send an error notification.

    The snapshot store is a map from URL to snapshot (the storage module is
    not part of this model); the ntfy service is a log of the notifications
    it accepted. What the outside world answers while one site is checked
    (each fetch attempt, each clock reading, each POST) comes in as a
    `SiteEvents` value. */
module Monitor {
  import opened Types
  import opened Differ
  import opened Fetcher
  import opened Notifier

  /** What the world answers while one site is checked: the outcome of each
      fetch attempt, the clock readings for the entry's timestamp, for
      `last_check` and for each notification, and for each POST either
      None (accepted) or the message of the error it throws. */
  datatype SiteEvents = SiteEvents(
    outcome: nat -> Attempt,
    fetchedAt: string,
    checkedAt: string,
    changeNotifiedAt: string,
    changePost: Option<string>,
    errorNotifiedAt: string,
    errorPost: Option<string>)

  /** How `monitorWebsite` ends: it returns a result or throws an Error with a message. */
  datatype Outcome = Returned(result: ChangeResult) | Raised(message: string)

  /** The effect of one `monitorWebsite` call: how it ended, the store and
      the notifications accepted so far. */
  datatype SiteStep = SiteStep(outcome: Outcome, records: map<string, Snapshot>, delivered: seq<Notification>)

  /** The state of `main`'s loop: the store, the accepted notifications, the
      `results` and `updatedSnapshots` arrays, and whether `main` has
      rejected (an error notification that could not be sent). */
  datatype RunState = RunState(
    records: map<string, Snapshot>,
    delivered: seq<Notification>,
    results: seq<ChangeResult>,
    updated: seq<string>,
    aborted: bool)

  /** Every stored snapshot sits under its own URL. */
  predicate Keyed(records: map<string, Snapshot>)
  {
    forall u :: u in records ==> records[u].url == u
  }

  /** `if (fetchResult.error)`: a missing or empty message is falsy. */
  predicate Truthy(error: Option<string>)
  {
    error.Some? && error.value != ""
  }

  /** `config.websites.filter((w) => w.enabled)` */
  function Enabled(websites: seq<Website>): (r: seq<Website>)
    ensures |r| <= |websites|
    ensures forall i :: 0 <= i < |r| ==> r[i].enabled && r[i] in websites
    ensures forall w :: w in websites && w.enabled ==> w in r
  {
    if websites == [] then []
    else if websites[0].enabled then [websites[0]] + Enabled(websites[1..])
    else Enabled(websites[1..])
  }

  /** Filtering a concatenation filters each part in turn, so the enabled
      sites keep their configuration order. */
  lemma {:induction false} EnabledAppend(a: seq<Website>, b: seq<Website>)
    ensures Enabled(a + b) == Enabled(a) + Enabled(b)
  {
    if a == [] {
      assert a + b == b;
    } else {
      assert (a + b)[0] == a[0] && (a + b)[1..] == a[1..] + b;
      EnabledAppend(a[1..], b);
    }
  }

  /** A single site is kept exactly when it is enabled. */
  lemma EnabledOne(w: Website)
    ensures Enabled([w]) == if w.enabled then [w] else []
  {
  }

  /** Every enabled site is kept as many times as it is configured, and no
      disabled site is kept. */
  lemma {:induction false} EnabledCounts(websites: seq<Website>, w: Website)
    ensures multiset(Enabled(websites))[w] == if w.enabled then multiset(websites)[w] else 0
  {
    if websites != [] {
      assert websites == [websites[0]] + websites[1..];
      EnabledCounts(websites[1..], w);
    }
  }

  /** `loadSnapshot(url)` */
  function Lookup(records: map<string, Snapshot>, url: string): Option<Snapshot>
  {
    if url in records then Some(records[url]) else None
  }

  /** `existing?.current` */
  function CurrentOf(existing: Option<Snapshot>): Option<SnapshotEntry>
  {
    if existing.Some? then Some(existing.value.current) else None
  }

  /** `existing?.change_count ?? 0` */
  function ChangeCountOf(existing: Option<Snapshot>): nat
  {
    if existing.Some? then existing.value.changeCount else 0
  }

  /** `existing?.error_count ?? 0` */
  function ErrorCountOf(existing: Option<Snapshot>): nat
  {
    if existing.Some? then existing.value.errorCount else 0
  }

  /** The entry for fetched content: the clock reading, the content, its
      digest and the HTTP status. */
  function NewEntry(fetched: FetchResult, fetchedAt: string, hash: string -> string): (e: SnapshotEntry)
    ensures e.content == fetched.content && e.hash == hash(fetched.content) && e.status == fetched.status
    ensures e.timestamp == fetchedAt
  {
    SnapshotEntry(fetchedAt, fetched.content, hash(fetched.content), fetched.status)
  }

  /** The snapshot `monitorWebsite` saves after a change or a first run. */
  function SavedSnapshot(website: Website, entry: SnapshotEntry, existing: Option<Snapshot>, changed: bool,
                         checkedAt: string): Snapshot
  {
    Snapshot(website.url, website.name, entry, CurrentOf(existing), checkedAt,
             if changed then ChangeCountOf(existing) + 1 else ChangeCountOf(existing),
             ErrorCountOf(existing), website.enabled, website.selector)
  }

  /** What the fetch gives for a site under the configured retries. */
  function Fetched(website: Website, config: Config, ev: SiteEvents, libs: Libraries): FetchResult
  {
    Fetch(config.settings.retries, Attempts(ev.outcome, website.selector, libs)).result
  }

  /** The branch of `monitorWebsite` taken on a change or a first run: save
      the new snapshot, then send the change notification. */
  function Publish(website: Website, entry: SnapshotEntry, existing: Option<Snapshot>, result: ChangeResult,
                   config: Config, ev: SiteEvents, libs: Libraries,
                   records: map<string, Snapshot>, delivered: seq<Notification>): SiteStep
  {
    var saved := records[website.url := SavedSnapshot(website, entry, existing, result.changed, ev.checkedAt)];
    match ChangeNotification(result, website, config.ntfy.topic, ev.changeNotifiedAt, libs.parseUrl)
    case Err(e) => SiteStep(Raised(e), saved, delivered)
    case Ok(n) =>
      if ev.changePost.Some? then SiteStep(Raised(ev.changePost.value), saved, delivered)
      else SiteStep(Returned(result), saved, delivered + [n])
  }

  /** `monitorWebsite` after the fetch, for content that was fetched. */
  function Evaluate(website: Website, fetched: FetchResult, config: Config, ev: SiteEvents, libs: Libraries,
                    records: map<string, Snapshot>, delivered: seq<Notification>): SiteStep
  {
    var entry := NewEntry(fetched, ev.fetchedAt, libs.hash);
    var existing := Lookup(records, website.url);
    var result := CompareContent(entry, CurrentOf(existing), website.url, website.name, libs.lineDiff);
    if result.changed || result.isFirstRun then
      Publish(website, entry, existing, result, config, ev, libs, records, delivered)
    else SiteStep(Returned(result), records, delivered)
  }

  /** `monitorWebsite`: a fetch error throws at once; otherwise the content
      is compared and, on a change or a first run, saved and notified. */
  function MonitorEffect(website: Website, fetched: FetchResult, config: Config, ev: SiteEvents, libs: Libraries,
                         records: map<string, Snapshot>, delivered: seq<Notification>): SiteStep
  {
    if Truthy(fetched.error) then SiteStep(Raised(fetched.error.value), records, delivered)
    else Evaluate(website, fetched, config, ev, libs, records, delivered)
  }

  /** The result `main` records for a site whose check threw. */
  function ErrorResult(website: Website, message: string): ChangeResult
  {
    ChangeResult(website.url, website.name, false, false, None, None, None, Some(message))
  }

  /** `main`'s `catch`: bump the error count of a stored snapshot, record
      the error result and send the error notification; if that send
      throws, `main` rejects. */
  function RecordFailure(website: Website, message: string, config: Config, ev: SiteEvents,
                         st: RunState): RunState
  {
    var existing := Lookup(st.records, website.url);
    var records := if existing.Some? then
        st.records[existing.value.url := existing.value.(errorCount := existing.value.errorCount + 1)]
      else st.records;
    var updated := if existing.Some? then st.updated + [website.url] else st.updated;
    var results := st.results + [ErrorResult(website, message)];
    var n := ErrorNotification(website, message, config.ntfy.topic, ev.errorNotifiedAt);
    if ev.errorPost.Some? then RunState(records, st.delivered, results, updated, true)
    else RunState(records, st.delivered + [n], results, updated, false)
  }

  /** One iteration of `main`'s loop, given what the fetch gave. */
  function CheckSite(website: Website, fetched: FetchResult, config: Config, ev: SiteEvents, libs: Libraries,
                     st: RunState): RunState
  {
    var step := MonitorEffect(website, fetched, config, ev, libs, st.records, st.delivered);
    match step.outcome
    case Returned(result) =>
      RunState(step.records, step.delivered, st.results + [result],
               if result.changed || result.isFirstRun then st.updated + [website.url] else st.updated, false)
    case Raised(message) =>
      RecordFailure(website, message, config, ev, st.(records := step.records, delivered := step.delivered))
  }

  /** `main`'s loop over the first `k` enabled sites, each checked by
      `check`, stopping once it has rejected. */
  function RunPrefix(sites: seq<Website>, k: nat, events: nat -> SiteEvents,
                     check: (Website, SiteEvents, RunState) -> RunState, init: RunState): RunState
    requires k <= |sites|
  {
    if k == 0 then init
    else
      var st := RunPrefix(sites, k - 1, events, check, init);
      if st.aborted then st else check(sites[k - 1], events(k - 1), st)
  }

  /** One iteration of `main`'s loop under a fixed configuration and libraries. */
  function Checker(config: Config, libs: Libraries): (Website, SiteEvents, RunState) -> RunState
  {
    (w: Website, ev: SiteEvents, st: RunState) => CheckSite(w, Fetched(w, config, ev, libs), config, ev, libs, st)
  }

  /** `main`'s loop over all enabled sites, from an empty run. */
  function RunEffect(config: Config, events: nat -> SiteEvents, libs: Libraries,
                     records: map<string, Snapshot>, delivered: seq<Notification>): RunState
  {
    var sites := Enabled(config.websites);
    RunPrefix(sites, |sites|, events, Checker(config, libs), RunState(records, delivered, [], [], false))
  }

  /** The snapshot store, keyed by URL. */
  class SnapshotStore {
    var records: map<string, Snapshot>

    constructor (initial: map<string, Snapshot>)
      ensures records == initial
    {
      records := initial;
    }

    /** `loadSnapshot` */
    method Load(url: string) returns (s: Option<Snapshot>)
      ensures s == Lookup(records, url)
    {
      if url in records {
        s := Some(records[url]);
      } else {
        s := None;
      }
    }

    /** `saveSnapshot`: the snapshot replaces whatever was stored under its URL. */
    method Save(s: Snapshot)
      modifies this
      ensures records == old(records)[s.url := s]
    {
      records := records[s.url := s];
    }
  }

  /** The ntfy service: the notifications it accepted, in order. */
  class Ntfy {
    var delivered: seq<Notification>

    constructor (initial: seq<Notification>)
      ensures delivered == initial
    {
      delivered := initial;
    }

    /** `sendNtfyNotification`: `failure` is the message of the error the
        POST throws, if it does; an accepted notification is logged. */
    method Send(n: Notification, failure: Option<string>) returns (error: Option<string>)
      modifies this
      ensures error == failure
      ensures delivered == if failure.None? then old(delivered) + [n] else old(delivered)
    {
      error := failure;
      if failure.None? {
        delivered := delivered + [n];
      }
    }
  }

  /** The save and the change notification of `monitorWebsite`. */
  method SaveAndNotify(website: Website, entry: SnapshotEntry, existing: Option<Snapshot>, result: ChangeResult,
                       config: Config, ev: SiteEvents, libs: Libraries, store: SnapshotStore, ntfy: Ntfy)
    returns (outcome: Outcome)
    modifies store, ntfy
    ensures var step := Publish(website, entry, existing, result, config, ev, libs,
                                old(store.records), old(ntfy.delivered));
      outcome == step.outcome && store.records == step.records && ntfy.delivered == step.delivered
  {
    store.Save(SavedSnapshot(website, entry, existing, result.changed, ev.checkedAt));
    var notification := ChangeNotification(result, website, config.ntfy.topic, ev.changeNotifiedAt, libs.parseUrl);
    if notification.Err? {
      return Raised(notification.message);
    }
    var error := ntfy.Send(notification.value, ev.changePost);
    if error.Some? {
      return Raised(error.value);
    }
    return Returned(result);
  }

  /** `monitorWebsite` */
  method MonitorWebsite(website: Website, config: Config, ev: SiteEvents, libs: Libraries,
                        store: SnapshotStore, ntfy: Ntfy) returns (outcome: Outcome)
    modifies store, ntfy
    ensures var step := MonitorEffect(website, Fetched(website, config, ev, libs), config, ev, libs,
                                      old(store.records), old(ntfy.delivered));
      outcome == step.outcome && store.records == step.records && ntfy.delivered == step.delivered
  {
    var fetchResult, _ := FetchWithRetry(website, config.settings.retries, ev.outcome, libs);
    if fetchResult.error.Some? && fetchResult.error.value != "" {
      return Raised(fetchResult.error.value);
    }
    var newEntry := SnapshotEntry(ev.fetchedAt, fetchResult.content, libs.hash(fetchResult.content), fetchResult.status);
    var existing := store.Load(website.url);
    var oldEntry := if existing.Some? then Some(existing.value.current) else None;
    var result := CompareContent(newEntry, oldEntry, website.url, website.name, libs.lineDiff);
    if result.changed || result.isFirstRun {
      outcome := SaveAndNotify(website, newEntry, existing, result, config, ev, libs, store, ntfy);
    } else {
      outcome := Returned(result);
    }
  }

  /** `main`'s `catch` block. */
  method HandleFailure(website: Website, message: string, config: Config, ev: SiteEvents,
                       store: SnapshotStore, ntfy: Ntfy, results: seq<ChangeResult>, updatedSnapshots: seq<string>)
    returns (results': seq<ChangeResult>, updatedSnapshots': seq<string>, aborted: bool)
    modifies store, ntfy
    ensures RunState(store.records, ntfy.delivered, results', updatedSnapshots', aborted)
      == RecordFailure(website, message, config, ev,
                       RunState(old(store.records), old(ntfy.delivered), results, updatedSnapshots, false))
  {
    ghost var st := RunState(store.records, ntfy.delivered, results, updatedSnapshots, false);
    ghost var r := RecordFailure(website, message, config, ev, st);
    results', updatedSnapshots' := results, updatedSnapshots;
    var existingSnapshot := store.Load(website.url);
    if existingSnapshot.Some? {
      store.Save(existingSnapshot.value.(errorCount := existingSnapshot.value.errorCount + 1));
      updatedSnapshots' := updatedSnapshots' + [website.url];
    }
    assert store.records == r.records && updatedSnapshots' == r.updated;
    results' := results' + [ErrorResult(website, message)];
    var error := ntfy.Send(ErrorNotification(website, message, config.ntfy.topic, ev.errorNotifiedAt), ev.errorPost);
    aborted := error.Some?;
  }

  /** One iteration of `main`'s loop: `monitorWebsite`, then either the
      result is recorded or the `catch` block runs. */
  method CheckWebsite(website: Website, config: Config, ev: SiteEvents, libs: Libraries,
                      store: SnapshotStore, ntfy: Ntfy, results: seq<ChangeResult>, updatedSnapshots: seq<string>)
    returns (results': seq<ChangeResult>, updatedSnapshots': seq<string>, aborted: bool)
    modifies store, ntfy
    ensures RunState(store.records, ntfy.delivered, results', updatedSnapshots', aborted)
      == CheckSite(website, Fetched(website, config, ev, libs), config, ev, libs,
                   RunState(old(store.records), old(ntfy.delivered), results, updatedSnapshots, false))
  {
    results', updatedSnapshots', aborted := results, updatedSnapshots, false;
    var outcome := MonitorWebsite(website, config, ev, libs, store, ntfy);
    match outcome {
      case Returned(result) =>
        if result.changed || result.isFirstRun {
          updatedSnapshots' := updatedSnapshots' + [website.url];
        }
        results' := results' + [result];
      case Raised(message) =>
        results', updatedSnapshots', aborted :=
          HandleFailure(website, message, config, ev, store, ntfy, results, updatedSnapshots);
    }
  }

  /** `main`: checks every enabled site in order; `completed` is false when
      it rejected after an error notification failed. */
  method RunMonitor(config: Config, events: nat -> SiteEvents, libs: Libraries, store: SnapshotStore, ntfy: Ntfy)
    returns (results: seq<ChangeResult>, updatedSnapshots: seq<string>, completed: bool)
    modifies store, ntfy
    ensures var run := RunEffect(config, events, libs, old(store.records), old(ntfy.delivered));
      && store.records == run.records && ntfy.delivered == run.delivered
      && results == run.results && updatedSnapshots == run.updated && completed == !run.aborted
  {
    var sites := Enabled(config.websites);
    ghost var check := Checker(config, libs);
    ghost var init := RunState(store.records, ntfy.delivered, [], [], false);
    results, updatedSnapshots := [], [];
    var i := 0;
    while i < |sites|
      invariant 0 <= i <= |sites|
      invariant RunPrefix(sites, i, events, check, init)
        == RunState(store.records, ntfy.delivered, results, updatedSnapshots, false)
    {
      var aborted;
      results, updatedSnapshots, aborted :=
        CheckWebsite(sites[i], config, events(i), libs, store, ntfy, results, updatedSnapshots);
      assert RunPrefix(sites, i + 1, events, check, init)
        == RunState(store.records, ntfy.delivered, results, updatedSnapshots, aborted);
      if aborted {
        RunAbortedStays(sites, i + 1, events, check, init);
        return results, updatedSnapshots, false;
      }
      i := i + 1;
    }
    completed := true;
  }

  /** Once `main` has rejected, later sites change nothing. */
  lemma {:induction false} RunAbortedStays(sites: seq<Website>, k: nat, events: nat -> SiteEvents,
                                          check: (Website, SiteEvents, RunState) -> RunState, init: RunState)
    requires k <= |sites|
    requires RunPrefix(sites, k, events, check, init).aborted
    ensures RunPrefix(sites, |sites|, events, check, init) == RunPrefix(sites, k, events, check, init)
    decreases |sites| - k
  {
    if k < |sites| {
      RunAbortedStays(sites, k + 1, events, check, init);
    }
  }

  // Properties of one site's check, for any result of the fetch.

  /** The stored digest differs from the fetched one, is empty, or there is
      none. */
  predicate Differs(website: Website, fetched: FetchResult, libs: Libraries, records: map<string, Snapshot>)
  {
    website.url !in records || records[website.url].current.hash == ""
    || libs.hash(fetched.content) != records[website.url].current.hash
  }

  /** The comparison `monitorWebsite` makes. */
  function Compared(website: Website, fetched: FetchResult, ev: SiteEvents, libs: Libraries,
                    records: map<string, Snapshot>): ChangeResult
  {
    CompareContent(NewEntry(fetched, ev.fetchedAt, libs.hash), CurrentOf(Lookup(records, website.url)),
                   website.url, website.name, libs.lineDiff)
  }

  /** `monitorWebsite` takes its saving branch exactly when the digests
      differ or there is no usable stored one. */
  lemma SavesWhenDiffers(website: Website, fetched: FetchResult, config: Config, ev: SiteEvents, libs: Libraries,
                         records: map<string, Snapshot>, delivered: seq<Notification>)
    requires !Truthy(fetched.error)
    ensures var result := Compared(website, fetched, ev, libs, records);
      && ((result.changed || result.isFirstRun) <==> Differs(website, fetched, libs, records))
      && (result.isFirstRun <==> website.url !in records || records[website.url].current.hash == "")
      && MonitorEffect(website, fetched, config, ev, libs, records, delivered)
         == if Differs(website, fetched, libs, records) then
              Publish(website, NewEntry(fetched, ev.fetchedAt, libs.hash), Lookup(records, website.url), result,
                      config, ev, libs, records, delivered)
            else SiteStep(Returned(result), records, delivered)
  {
  }

  /** The saving branch always stores the new snapshot; it returns the result
      exactly when the change notification could be built and was accepted,
      and then that is the one notification sent. */
  lemma PublishSaves(website: Website, entry: SnapshotEntry, existing: Option<Snapshot>, result: ChangeResult,
                     config: Config, ev: SiteEvents, libs: Libraries,
                     records: map<string, Snapshot>, delivered: seq<Notification>)
    ensures var step := Publish(website, entry, existing, result, config, ev, libs, records, delivered);
      var n := ChangeNotification(result, website, config.ntfy.topic, ev.changeNotifiedAt, libs.parseUrl);
      && step.records == records[website.url := SavedSnapshot(website, entry, existing, result.changed, ev.checkedAt)]
      && (step.outcome.Returned? <==> n.Ok? && ev.changePost.None?)
      && (step.outcome.Returned? ==> step.outcome.result == result && step.delivered == delivered + [n.value])
      && (step.outcome.Raised? ==> step.delivered == delivered)
      && (n.Err? ==> step.outcome == Raised(n.message))
      && (n.Ok? && ev.changePost.Some? ==> step.outcome == Raised(ev.changePost.value))
  {
  }

  /** A fetch that reports an error throws that error before anything is
      stored or sent. */
  lemma FetchErrorChangesNothing(website: Website, fetched: FetchResult, config: Config, ev: SiteEvents,
                                 libs: Libraries, records: map<string, Snapshot>, delivered: seq<Notification>)
    requires Truthy(fetched.error)
    ensures MonitorEffect(website, fetched, config, ev, libs, records, delivered)
      == SiteStep(Raised(fetched.error.value), records, delivered)
  {
  }

  /** Fetching the same content again (same digest as the stored, non-empty
      one) reports no change, stores nothing and sends nothing. */
  lemma SameContentIsQuiet(website: Website, fetched: FetchResult, config: Config, ev: SiteEvents, libs: Libraries,
                           records: map<string, Snapshot>, delivered: seq<Notification>)
    requires !Truthy(fetched.error)
    requires website.url in records && records[website.url].current.hash != ""
    requires libs.hash(fetched.content) == records[website.url].current.hash
    ensures var step := MonitorEffect(website, fetched, config, ev, libs, records, delivered);
      && step.outcome.Returned? && !step.outcome.result.changed && !step.outcome.result.isFirstRun
      && step.outcome.result.oldHash == step.outcome.result.newHash
      && step.records == records && step.delivered == delivered
  {
    SavesWhenDiffers(website, fetched, config, ev, libs, records, delivered);
  }

  /** Content that differs from the stored snapshot becomes its current
      entry; the old current entry becomes the previous one; the change
      count goes up by one on a change (not on a first run); the error count
      is kept; nothing else in the store changes. */
  lemma ChangeRotatesSnapshot(website: Website, fetched: FetchResult, config: Config, ev: SiteEvents,
                              libs: Libraries, records: map<string, Snapshot>, delivered: seq<Notification>)
    requires !Truthy(fetched.error) && Differs(website, fetched, libs, records)
    ensures var step := MonitorEffect(website, fetched, config, ev, libs, records, delivered);
      var existing := Lookup(records, website.url);
      && website.url in step.records
      && step.records == records[website.url := step.records[website.url]]
      && step.records[website.url].url == website.url
      && step.records[website.url].current == NewEntry(fetched, ev.fetchedAt, libs.hash)
      && step.records[website.url].previous == CurrentOf(existing)
      && step.records[website.url].lastCheck == ev.checkedAt
      && step.records[website.url].changeCount
         == (if existing.Some? && existing.value.current.hash != "" then ChangeCountOf(existing) + 1
             else ChangeCountOf(existing))
      && step.records[website.url].errorCount == ErrorCountOf(existing)
  {
    var result := Compared(website, fetched, ev, libs, records);
    SavesWhenDiffers(website, fetched, config, ev, libs, records, delivered);
    PublishSaves(website, NewEntry(fetched, ev.fetchedAt, libs.hash), Lookup(records, website.url), result,
                 config, ev, libs, records, delivered);
  }

  /** After a change or a first run, the result is returned exactly when the
      change notification could be built and was accepted, and then it is
      the one notification sent. */
  lemma ChangeIsNotified(website: Website, fetched: FetchResult, config: Config, ev: SiteEvents, libs: Libraries,
                         records: map<string, Snapshot>, delivered: seq<Notification>)
    requires !Truthy(fetched.error) && Differs(website, fetched, libs, records)
    ensures var step := MonitorEffect(website, fetched, config, ev, libs, records, delivered);
      var result := Compared(website, fetched, ev, libs, records);
      var n := ChangeNotification(result, website, config.ntfy.topic, ev.changeNotifiedAt, libs.parseUrl);
      && (result.changed || result.isFirstRun)
      && (step.outcome.Returned? <==> n.Ok? && ev.changePost.None?)
      && (step.outcome.Returned? ==> step.outcome.result == result && step.delivered == delivered + [n.value])
      && (step.outcome.Raised? ==> step.delivered == delivered)
      && (n.Err? ==> step.outcome == Raised(n.message))
      && (n.Ok? && ev.changePost.Some? ==> step.outcome == Raised(ev.changePost.value))
  {
    var result := Compared(website, fetched, ev, libs, records);
    SavesWhenDiffers(website, fetched, config, ev, libs, records, delivered);
    PublishSaves(website, NewEntry(fetched, ev.fetchedAt, libs.hash), Lookup(records, website.url), result,
                 config, ev, libs, records, delivered);
  }

  /** The first check of a site stores a snapshot with no previous entry and
      no changes counted, and returns a first-run result unless the POST
      fails. */
  lemma FirstRunStoresBaseline(website: Website, fetched: FetchResult, config: Config, ev: SiteEvents,
                               libs: Libraries, records: map<string, Snapshot>, delivered: seq<Notification>)
    requires !Truthy(fetched.error) && website.url !in records
    ensures var step := MonitorEffect(website, fetched, config, ev, libs, records, delivered);
      && step.records == records[website.url := step.records[website.url]]
      && step.records[website.url].previous == None
      && step.records[website.url].changeCount == 0 && step.records[website.url].errorCount == 0
      && (step.outcome.Returned? <==> ev.changePost.None?)
      && (step.outcome.Returned? ==> step.outcome.result.isFirstRun && !step.outcome.result.changed)
  {
    ChangeRotatesSnapshot(website, fetched, config, ev, libs, records, delivered);
    ChangeIsNotified(website, fetched, config, ev, libs, records, delivered);
    SavesWhenDiffers(website, fetched, config, ev, libs, records, delivered);
  }

  /** A change notification that throws after the save (an `Invalid URL`
      while building it, or a failed POST) makes `main` count an error on the
      snapshot just saved, which keeps the new content, and record the
      thrown message as the site's error. */
  lemma FailedNoticeCountsError(website: Website, fetched: FetchResult, config: Config, ev: SiteEvents,
                                libs: Libraries, st: RunState)
    requires !Truthy(fetched.error) && Differs(website, fetched, libs, st.records)
    requires MonitorEffect(website, fetched, config, ev, libs, st.records, st.delivered).outcome.Raised?
    ensures var r := CheckSite(website, fetched, config, ev, libs, st);
      var existing := Lookup(st.records, website.url);
      var n := ChangeNotification(Compared(website, fetched, ev, libs, st.records), website, config.ntfy.topic,
                                  ev.changeNotifiedAt, libs.parseUrl);
      && website.url in r.records
      && r.records[website.url].current == NewEntry(fetched, ev.fetchedAt, libs.hash)
      && r.records[website.url].errorCount == ErrorCountOf(existing) + 1
      && |r.results| == |st.results| + 1 && r.results[..|st.results|] == st.results
      && r.results[|st.results|]
         == ErrorResult(website, MonitorEffect(website, fetched, config, ev, libs, st.records, st.delivered).outcome.message)
      && (n.Err? ==> r.results[|st.results|].error == Some(n.message))
      && (n.Ok? ==> ev.changePost.Some? && r.results[|st.results|].error == ev.changePost)
      && r.aborted == ev.errorPost.Some?
  {
    var step := MonitorEffect(website, fetched, config, ev, libs, st.records, st.delivered);
    ChangeRotatesSnapshot(website, fetched, config, ev, libs, st.records, st.delivered);
    ChangeIsNotified(website, fetched, config, ev, libs, st.records, st.delivered);
    assert step.outcome.Raised?;
    var mid := st.(records := step.records, delivered := step.delivered);
    RecordFailureCounts(website, step.outcome.message, config, ev, mid);
    assert (st.results + [ErrorResult(website, step.outcome.message)])[..|st.results|] == st.results;
  }

  /** `main`'s `catch` adds one to the stored error count of the site, if it
      has a snapshot, and records one error result. */
  lemma RecordFailureCounts(website: Website, message: string, config: Config, ev: SiteEvents, st: RunState)
    ensures var r := RecordFailure(website, message, config, ev, st);
      && (website.url in st.records && st.records[website.url].url == website.url ==>
            && r.records == st.records[website.url := st.records[website.url].(errorCount := st.records[website.url].errorCount + 1)]
            && r.updated == st.updated + [website.url])
      && (website.url !in st.records ==> r.records == st.records && r.updated == st.updated)
      && r.results == st.results + [ErrorResult(website, message)]
      && r.aborted == ev.errorPost.Some?
      && r.delivered == if ev.errorPost.Some? then st.delivered
                        else st.delivered + [ErrorNotification(website, message, config.ntfy.topic, ev.errorNotifiedAt)]
  {
  }

  // The store and the log across one site.

  /** Each snapshot keeps its URL, no snapshot is dropped, the only one that
      may be added or replaced is the site's own, its counters never go down,
      and notifications are only appended. */
  predicate Grows(url: string, before: map<string, Snapshot>, after: map<string, Snapshot>,
                  sent: seq<Notification>, sent': seq<Notification>)
  {
    && Keyed(after)
    && (forall u :: u in after ==> u in before || u == url)
    && (forall u :: u in before ==> u in after)
    && (forall u :: u in before && u != url ==> after[u] == before[u])
    && (forall u :: u in before ==> after[u].changeCount >= before[u].changeCount
                                    && after[u].errorCount >= before[u].errorCount)
    && |sent| <= |sent'| && sent'[..|sent|] == sent
  }

  lemma MonitorGrows(website: Website, fetched: FetchResult, config: Config, ev: SiteEvents, libs: Libraries,
                     records: map<string, Snapshot>, delivered: seq<Notification>)
    requires Keyed(records)
    ensures var step := MonitorEffect(website, fetched, config, ev, libs, records, delivered);
      Grows(website.url, records, step.records, delivered, step.delivered)
  {
    var step := MonitorEffect(website, fetched, config, ev, libs, records, delivered);
    if Truthy(fetched.error) {
      FetchErrorChangesNothing(website, fetched, config, ev, libs, records, delivered);
      GrowsRefl(website.url, records, delivered);
    } else if Differs(website, fetched, libs, records) {
      ChangeIsNotified(website, fetched, config, ev, libs, records, delivered);
      ChangeRotatesSnapshot(website, fetched, config, ev, libs, records, delivered);
      if step.outcome.Returned? {
        assert step.delivered[..|delivered|] == delivered;
      }
      SaveGrows(website.url, records, step.records[website.url], delivered, step.delivered);
    } else {
      SavesWhenDiffers(website, fetched, config, ev, libs, records, delivered);
      GrowsRefl(website.url, records, delivered);
    }
  }

  lemma FailureGrows(website: Website, message: string, config: Config, ev: SiteEvents, st: RunState)
    requires Keyed(st.records)
    ensures var r := RecordFailure(website, message, config, ev, st);
      && Grows(website.url, st.records, r.records, st.delivered, r.delivered)
      && r.results == st.results + [ErrorResult(website, message)]
      && (r.updated == st.updated || r.updated == st.updated + [website.url])
  {
    var r := RecordFailure(website, message, config, ev, st);
    RecordFailureCounts(website, message, config, ev, st);
    assert r.delivered[..|st.delivered|] == st.delivered;
    if website.url in st.records {
      SaveGrows(website.url, st.records, r.records[website.url], st.delivered, r.delivered);
    } else {
      assert r.records == st.records;
      GrowsRefl(website.url, st.records, st.delivered);
      assert Grows(website.url, st.records, st.records, st.delivered, r.delivered);
    }
  }

  lemma GrowsRefl(url: string, records: map<string, Snapshot>, sent: seq<Notification>)
    requires Keyed(records)
    ensures Grows(url, records, records, sent, sent)
  {
    assert sent[..|sent|] == sent;
  }

  /** Saving a snapshot under its own URL, with counters no lower than the
      stored ones, grows the store. */
  lemma SaveGrows(url: string, before: map<string, Snapshot>, s: Snapshot,
                  sent: seq<Notification>, sent': seq<Notification>)
    requires Keyed(before) && s.url == url
    requires url in before ==> s.changeCount >= before[url].changeCount && s.errorCount >= before[url].errorCount
    requires |sent| <= |sent'| && sent'[..|sent|] == sent
    ensures Grows(url, before, before[url := s], sent, sent')
  {
  }

  lemma GrowsTrans(url: string, a: map<string, Snapshot>, b: map<string, Snapshot>, c: map<string, Snapshot>,
                   x: seq<Notification>, y: seq<Notification>, z: seq<Notification>)
    requires Grows(url, a, b, x, y) && Grows(url, b, c, y, z)
    ensures Grows(url, a, c, x, z)
  {
    assert z[..|x|] == y[..|y|][..|x|];
  }

  /** One iteration of `main`'s loop grows the store and the log, appends
      one result, for this site, and reports at most this site's URL as
      updated. */
  predicate StepGrows(website: Website, st: RunState, r: RunState)
  {
    && Grows(website.url, st.records, r.records, st.delivered, r.delivered)
    && |r.results| == |st.results| + 1 && r.results[..|st.results|] == st.results
    && r.results[|st.results|].url == website.url && r.results[|st.results|].name == website.name
    && (r.updated == st.updated || r.updated == st.updated + [website.url])
  }

  lemma CheckSiteGrows(website: Website, fetched: FetchResult, config: Config, ev: SiteEvents, libs: Libraries,
                       st: RunState)
    requires Keyed(st.records)
    ensures StepGrows(website, st, CheckSite(website, fetched, config, ev, libs, st))
  {
    var step := MonitorEffect(website, fetched, config, ev, libs, st.records, st.delivered);
    MonitorGrows(website, fetched, config, ev, libs, st.records, st.delivered);
    match step.outcome {
      case Returned(result) =>
        ReturnedIsForSite(website, fetched, config, ev, libs, st.records, st.delivered);
        ReturnedStepGrows(website, result, st, step);
      case Raised(message) =>
        RaisedStepGrows(website, message, config, ev, st, step);
    }
  }

  lemma ReturnedStepGrows(website: Website, result: ChangeResult, st: RunState, step: SiteStep)
    requires Grows(website.url, st.records, step.records, st.delivered, step.delivered)
    requires result.url == website.url && result.name == website.name
    ensures StepGrows(website, st,
                      RunState(step.records, step.delivered, st.results + [result],
                               if result.changed || result.isFirstRun then st.updated + [website.url] else st.updated,
                               false))
  {
    assert (st.results + [result])[..|st.results|] == st.results;
  }

  lemma RaisedStepGrows(website: Website, message: string, config: Config, ev: SiteEvents, st: RunState,
                        step: SiteStep)
    requires Grows(website.url, st.records, step.records, st.delivered, step.delivered)
    ensures StepGrows(website, st,
                      RecordFailure(website, message, config, ev, st.(records := step.records, delivered := step.delivered)))
  {
    var mid := st.(records := step.records, delivered := step.delivered);
    FailureGrows(website, message, config, ev, mid);
    var r := RecordFailure(website, message, config, ev, mid);
    GrowsTrans(website.url, st.records, step.records, r.records, st.delivered, step.delivered, r.delivered);
    assert r.results[..|st.results|] == st.results;
  }

  lemma CheckerGrows(config: Config, libs: Libraries)
    ensures forall w: Website, ev: SiteEvents, st: RunState | Keyed(st.records) :: StepGrows(w, st, Checker(config, libs)(w, ev, st))
  {
    forall w: Website, ev: SiteEvents, st: RunState | Keyed(st.records) ensures StepGrows(w, st, Checker(config, libs)(w, ev, st)) {
      CheckSiteGrows(w, Fetched(w, config, ev, libs), config, ev, libs, st);
    }
  }

  /** A result `monitorWebsite` returns is about the site it checked. */
  lemma ReturnedIsForSite(website: Website, fetched: FetchResult, config: Config, ev: SiteEvents, libs: Libraries,
                          records: map<string, Snapshot>, delivered: seq<Notification>)
    ensures var step := MonitorEffect(website, fetched, config, ev, libs, records, delivered);
      step.outcome.Returned? ==> step.outcome.result.url == website.url && step.outcome.result.name == website.name
  {
    if !Truthy(fetched.error) {
      SavesWhenDiffers(website, fetched, config, ev, libs, records, delivered);
      if Differs(website, fetched, libs, records) {
        ChangeIsNotified(website, fetched, config, ev, libs, records, delivered);
      }
    }
  }

  // Properties of the whole run.

  /** What holds of `main`'s loop after the first `k` enabled sites. */
  predicate RunInvariant(sites: seq<Website>, k: nat, init: RunState, st: RunState)
    requires k <= |sites|
  {
    && Keyed(st.records)
    && (forall u :: u in st.records ==> u in init.records || exists i :: 0 <= i < k && sites[i].url == u)
    && (forall u :: u in init.records ==> u in st.records && st.records[u].changeCount >= init.records[u].changeCount
                                          && st.records[u].errorCount >= init.records[u].errorCount)
    && |init.delivered| <= |st.delivered| && st.delivered[..|init.delivered|] == init.delivered
    && (if st.aborted then |st.results| <= k else |st.results| == k)
    && (forall i :: 0 <= i < |st.results| ==> st.results[i].url == sites[i].url && st.results[i].name == sites[i].name)
    && (forall v :: v in st.updated ==> exists i :: 0 <= i < k && sites[i].url == v)
  }

  lemma {:induction false} RunPrefixInvariant(sites: seq<Website>, k: nat, events: nat -> SiteEvents,
                                               check: (Website, SiteEvents, RunState) -> RunState, init: RunState)
    requires k <= |sites|
    requires Keyed(init.records) && init.results == [] && init.updated == [] && !init.aborted
    requires forall w: Website, ev: SiteEvents, st: RunState | Keyed(st.records) :: StepGrows(w, st, check(w, ev, st))
    ensures RunInvariant(sites, k, init, RunPrefix(sites, k, events, check, init))
  {
    if k == 0 {
      assert init.delivered[..|init.delivered|] == init.delivered;
    } else {
      RunPrefixInvariant(sites, k - 1, events, check, init);
      var st := RunPrefix(sites, k - 1, events, check, init);
      if st.aborted {
        AbortedInvariant(sites, k, init, st);
      } else {
        RunStepInvariant(sites, k, init, st, check(sites[k - 1], events(k - 1), st));
      }
    }
  }

  lemma AbortedInvariant(sites: seq<Website>, k: nat, init: RunState, st: RunState)
    requires 0 < k <= |sites|
    requires RunInvariant(sites, k - 1, init, st) && st.aborted
    ensures RunInvariant(sites, k, init, st)
  {
    forall u | u in st.records && u !in init.records ensures exists i :: 0 <= i < k && sites[i].url == u {
      var i :| 0 <= i < k - 1 && sites[i].url == u;
    }
    forall v | v in st.updated ensures exists i :: 0 <= i < k && sites[i].url == v {
      var i :| 0 <= i < k - 1 && sites[i].url == v;
    }
  }

  lemma RunStepInvariant(sites: seq<Website>, k: nat, init: RunState, st: RunState, r: RunState)
    requires 0 < k <= |sites|
    requires RunInvariant(sites, k - 1, init, st) && !st.aborted
    requires StepGrows(sites[k - 1], st, r)
    ensures RunInvariant(sites, k, init, r)
  {
    assert r.delivered[..|init.delivered|] == r.delivered[..|st.delivered|][..|init.delivered|];
    forall i | 0 <= i < |r.results|
      ensures r.results[i].url == sites[i].url && r.results[i].name == sites[i].name
    {
      if i < |st.results| {
        assert r.results[i] == r.results[..|st.results|][i];
      }
    }
    forall u | u in r.records ensures u in init.records || exists i :: 0 <= i < k && sites[i].url == u {
      if u !in st.records {
        assert sites[k - 1].url == u;
      }
    }
  }

  /** A run that completes returns one result per enabled site, in order; a
      run that rejects returns one for each site it reached. Only enabled
      sites' URLs are reported as updated or added to the store, no stored
      snapshot is lost, its counters never go down, every snapshot stays
      under its own URL, and no notification is taken back. */
  lemma RunReportsEverySite(config: Config, events: nat -> SiteEvents, libs: Libraries,
                            records: map<string, Snapshot>, delivered: seq<Notification>)
    requires Keyed(records)
    ensures var sites := Enabled(config.websites);
      var run := RunEffect(config, events, libs, records, delivered);
      && (!run.aborted ==> |run.results| == |sites|)
      && |run.results| <= |sites|
      && (forall i :: 0 <= i < |run.results| ==> run.results[i].url == sites[i].url)
      && (forall v :: v in run.updated ==> exists w :: w in config.websites && w.enabled && w.url == v)
      && (forall u :: u in run.records ==> u in records || exists w :: w in config.websites && w.enabled && w.url == u)
      && (forall u :: u in records ==> u in run.records && run.records[u].changeCount >= records[u].changeCount
                                       && run.records[u].errorCount >= records[u].errorCount)
      && Keyed(run.records)
      && |delivered| <= |run.delivered| && run.delivered[..|delivered|] == delivered
  {
    var sites := Enabled(config.websites);
    var init := RunState(records, delivered, [], [], false);
    var run := RunEffect(config, events, libs, records, delivered);
    CheckerGrows(config, libs);
    RunPrefixInvariant(sites, |sites|, events, Checker(config, libs), init);
    forall v | v in run.updated ensures exists w :: w in config.websites && w.enabled && w.url == v {
      var i :| 0 <= i < |sites| && sites[i].url == v;
      assert sites[i] in config.websites && sites[i].enabled;
    }
    forall u | u in run.records ensures u in records || exists w :: w in config.websites && w.enabled && w.url == u {
      if u !in records {
        var i :| 0 <= i < |sites| && sites[i].url == u;
        assert sites[i] in config.websites && sites[i].enabled;
      }
    }
  }
}
