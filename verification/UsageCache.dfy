/** The usage cache of usage.py: quota snapshots kept in one file per profile. */
module UsageCache {
  // A snapshot is tied to the credential file it was fetched with, and used as a fallback when a fetch fails for a
  // passing reason.

  import opened Wrappers
  import opened Text
  import opened AccountUsages

  // ---------------------------------------------------------------- snapshots as JSON

  datatype Json = JNull | JBool(b: bool) | JInt(n: int) | JReal(r: real) | JStr(s: string) | JObj(fields: map<string,
    Json>)

  function Field(o: Json, name: string): Json {
    if o.JObj? && name in o.fields then o.fields[name] else JNull
  }

  function StrOrNull(v: Option<string>): Json {
    if v.Some? then JStr(v.value) else JNull
  }

  function IntOrNull(v: Option<int>): Json {
    if v.Some? then JInt(v.value) else JNull
  }

  /** The reset time in readable form is written too, and never read back. */
  function WindowToDict(w: Option<UsageWindow>, iso: Option<int> -> Json): Json {
    if w.None? then JNull
    else
      JObj(map["used_percent" := JReal(w.value.usedPercent), "window_seconds" := IntOrNull(w.value.windowSeconds),
               "resets_at" := IntOrNull(w.value.resetsAt), "resets_at_iso" := iso(w.value.resetsAt)])
  }

  function UsageToDict(u: AccountUsage, iso: Option<int> -> Json): Json {
    JObj(map["plan_type" := StrOrNull(u.planType), "primary" := WindowToDict(u.primary, iso),
             "secondary" := WindowToDict(u.secondary, iso), "credits_balance" := StrOrNull(u.creditsBalance),
             "credits_unlimited" := JBool(u.creditsUnlimited), "error" := StrOrNull(u.error)])
  }

  /** A field that should be text or null; none when it is something else. */
  function AsStr(v: Json): Option<Option<string>> {
    match v
    case JNull => Some(None)
    case JStr(s) => Some(Some(s))
    case _ => None
  }

  function AsInt(v: Json): Option<Option<int>> {
    match v
    case JNull => Some(None)
    case JInt(n) => Some(Some(n))
    case _ => None
  }

  function AsReal(v: Json): Option<real> {
    match v
    case JReal(r) => Some(r)
    case JInt(n) => Some(n as real)
    case _ => None
  }

  /** No window for anything but an object; none at all for an object that is not a window. */
  function WindowFromDict(v: Json): Option<Option<UsageWindow>> {
    if !v.JObj? then Some(None)
    else
      var used, seconds, reset := AsReal(Field(v, "used_percent")), AsInt(Field(v, "window_seconds")),
        AsInt(Field(v, "resets_at"));
      if used.None? || seconds.None? || reset.None? then None
      else Some(Some(UsageWindow(used.value, seconds.value, reset.value)))
  }

  function UsageFromDict(v: Json): Option<AccountUsage> {
    if !v.JObj? then None
    else
      var plan, balance, error := AsStr(Field(v, "plan_type")), AsStr(Field(v, "credits_balance")),
        AsStr(Field(v, "error"));
      var primary, secondary := WindowFromDict(Field(v, "primary")), WindowFromDict(Field(v, "secondary"));
      if plan.None? || balance.None? || error.None? || primary.None? || secondary.None? then None
      else
        Some(AccountUsage(plan.value, primary.value, secondary.value, balance.value,
                          Field(v, "credits_unlimited") == JBool(true), error.value))
  }

  lemma WindowRoundTrip(w: Option<UsageWindow>, iso: Option<int> -> Json)
    ensures WindowFromDict(WindowToDict(w, iso)) == Some(w)
  {
  }

  /** Every snapshot is read back as it was written. */
  lemma UsageRoundTrip(u: AccountUsage, iso: Option<int> -> Json)
    ensures UsageFromDict(UsageToDict(u, iso)) == Some(u)
  {
    WindowRoundTrip(u.primary, iso);
    WindowRoundTrip(u.secondary, iso);
  }

  // ---------------------------------------------------------------- outcomes

  const AUTH_EXPIRED_ERROR := "authentication expired"

  function Lower(s: string): (r: string)
    ensures |r| == |s|
  {
    if s == [] then [] else [LowerChar(s[0])] + Lower(s[1..])
  }

  predicate IsAuthExpired(error: Option<string>) {
    error.Some?
    && var text := Lower(Trim(error.value, Blank)); text == AUTH_EXPIRED_ERROR || AUTH_EXPIRED_ERROR + ":" <= text
  }

  /** The same letters, of either case. */
  predicate SameLetters(s: string, t: string) {
    |s| == |t| && forall i :: 0 <= i < |s| ==> LowerChar(s[i]) == LowerChar(t[i])
  }

  lemma {:induction false} LowerIs(s: string, i: nat)
    requires i < |s|
    ensures Lower(s)[i] == LowerChar(s[i])
  {
    if i > 0 {
      LowerIs(s[1..], i - 1);
    }
  }

  lemma LowerTells(s: string, t: string)
    requires |s| == |t| && forall i :: 0 <= i < |t| ==> LowerChar(t[i]) == t[i]
    ensures SameLetters(s, t) <==> Lower(s) == t
  {
    forall i | 0 <= i < |s| { LowerIs(s, i); }
  }

  lemma {:induction false} LowerOfFront(s: string, n: nat)
    requires n <= |s|
    ensures Lower(s[..n]) == Lower(s)[..n]
  {
    forall i | 0 <= i < n ensures Lower(s[..n])[i] == Lower(s)[i] {
      LowerIs(s, i);
      LowerIs(s[..n], i);
    }
  }

  lemma ErrorIsLower()
    ensures |AUTH_EXPIRED_ERROR| == 22
    ensures forall i :: 0 <= i < 22 ==> LowerChar(AUTH_EXPIRED_ERROR[i]) == AUTH_EXPIRED_ERROR[i]
  {
  }

  /** Which errors are refusals of the credentials: these two words in either case, alone or followed by a colon. */
  lemma RefusalsAre(error: string)
    ensures var text := Trim(error, Blank);
      IsAuthExpired(Some(error)) <==>
        |text| >= 22 && SameLetters(text[..22], "authentication expired") && (|text| > 22 ==> text[22] == ':')
  {
    var text := Trim(error, Blank);
    ErrorIsLower();
    if |text| >= 22 {
      LowerTells(text[..22], AUTH_EXPIRED_ERROR);
      LowerOfFront(text, 22);
      if |text| > 22 {
        LowerIs(text, 22);
        assert LowerChar(text[22]) == ':' <==> text[22] == ':';
      }
    }
  }

  /** A success, or a refusal of the credentials: an outcome that says something about the account. */
  predicate Definitive(u: AccountUsage) {
    u.error.None? || IsAuthExpired(u.error)
  }

  // ---------------------------------------------------------------- one cache file

  /** What stays the same: whether there is a cache directory, and how a reset time is rendered. */
  datatype Setup = Setup(cached: bool, iso: Option<int> -> Json)

  /** One profile: its cache file, and the fingerprint of its credential file if that can be read. */
  datatype Slot = Slot(file: Option<Json>, fingerprint: Option<string>)

  /** A limit in seconds, or none for no limit. */
  predicate Expired(fetchedAt: real, now: real, ttl: Option<real>) {
    ttl.Some? && now - fetchedAt > ttl.value
  }

  /** `_read_cache` */
  function ReadCache(su: Setup, slot: Slot, now: real, ttl: Option<real>): Option<AccountUsage> {
    if !su.cached || slot.file.None? || (ttl.Some? && ttl.value <= 0.0) then None
    else
      var at, mark := AsReal(Field(slot.file.value, "fetched_at")), Field(slot.file.value, "auth_fingerprint");
      if at.None? || Expired(at.value, now, ttl) then None
      else if mark != StrOrNull(slot.fingerprint) then None
      else UsageFromDict(Field(slot.file.value, "usage"))
  }

  function CacheEntry(su: Setup, fingerprint: string, u: AccountUsage, now: real): Json {
    JObj(map["fetched_at" := JReal(now), "auth_fingerprint" := JStr(fingerprint), "usage" := UsageToDict(u, su.iso)])
  }

  /** `_write_cache` */
  function WriteCache(su: Setup, slot: Slot, u: AccountUsage, now: real, writable: bool): Slot {
    if !su.cached || slot.fingerprint.None? || !writable then slot
    else slot.(file := Some(CacheEntry(su, slot.fingerprint.value, u, now)))
  }

  /** What a fetch would give, when, and whether the cache could be written then. */
  datatype Answer = Answer(usage: AccountUsage, at: real, writable: bool)

  /** A fetched outcome: kept, or replaced by the last success when it is a passing failure. */
  function Settle(su: Setup, slot: Slot, a: Answer): (Slot, AccountUsage) {
    var previous := ReadCache(su, slot, a.at, None);
    if !Definitive(a.usage) && previous.Some? && previous.value.error.None? then (slot, previous.value)
    else (WriteCache(su, slot, a.usage, a.at, a.writable), a.usage)
  }

  datatype Visit = Visit(now: real, ttl: real, refresh: bool, answer: Answer)

  /** The snapshot served without a fetch. */
  function Served(su: Setup, slot: Slot, v: Visit): Option<AccountUsage> {
    if v.refresh then None else ReadCache(su, slot, v.now, Some(v.ttl))
  }

  /** One profile's part of `fetch_profile_usage`. */
  function Report(su: Setup, slot: Slot, v: Visit): (Slot, AccountUsage) {
    var cached := Served(su, slot, v);
    if cached.Some? then (slot, cached.value) else Settle(su, slot, v.answer)
  }

  // ---------------------------------------------------------------- runs

  datatype Event = Visits(v: Visit) | Changes(fingerprint: Option<string>)

  function Step(su: Setup, slot: Slot, e: Event): Slot {
    match e
    case Visits(v) => Report(su, slot, v).0
    case Changes(fingerprint) => slot.(fingerprint := fingerprint)
  }

  function Run(su: Setup, fingerprint: Option<string>, es: seq<Event>): Slot {
    if es == [] then Slot(None, fingerprint)
    else Step(su, Run(su, fingerprint, es[..|es| - 1]), es[|es| - 1])
  }

  /** The definitive outcome an event has for the credential file with this fingerprint. */
  function OutcomeOf(su: Setup, slot: Slot, e: Event, fingerprint: string): Option<Answer> {
    if e.Visits? && Served(su, slot, e.v).None? && Definitive(e.v.answer.usage) && slot.fingerprint == Some(fingerprint)
    then Some(e.v.answer) else None
  }

  /** The latest definitive outcome of the run for that credential file. */
  function Latest(su: Setup, start: Option<string>, es: seq<Event>, fingerprint: string): Option<Answer> {
    if es == [] then None
    else
      var front, e := es[..|es| - 1], es[|es| - 1];
      var now := OutcomeOf(su, Run(su, start, front), e, fingerprint);
      if now.Some? then now else Latest(su, start, front, fingerprint)
  }

  /** The latest of them that was written to the cache. */
  function LatestWritten(su: Setup, start: Option<string>, es: seq<Event>, fingerprint: string): Option<Answer> {
    if es == [] then None
    else
      var front, e := es[..|es| - 1], es[|es| - 1];
      var now := OutcomeOf(su, Run(su, start, front), e, fingerprint);
      if now.Some? && now.value.writable then now else LatestWritten(su, start, front, fingerprint)
  }

  /** Reading a file that was written: what it holds, if it is of this credential file and not too old. */
  lemma ReadBack(su: Setup, slot: Slot, f: string, u: AccountUsage, at: real, now: real, ttl: Option<real>)
    requires slot.file == Some(CacheEntry(su, f, u, at))
    ensures ReadCache(su, slot, now, ttl) ==
      if !su.cached || (ttl.Some? && ttl.value <= 0.0) || Expired(at, now, ttl) || slot.fingerprint != Some(f)
      then None else Some(u)
  {
    var entry := slot.file.value;
    assert Field(entry, "fetched_at") == JReal(at);
    assert Field(entry, "auth_fingerprint") == JStr(f);
    assert Field(entry, "usage") == UsageToDict(u, su.iso);
    UsageRoundTrip(u, su.iso);
  }

  /** The event writes the cache file. */
  predicate Writes(su: Setup, slot: Slot, e: Event) {
    && e.Visits? && Served(su, slot, e.v).None?
    && (var previous := ReadCache(su, slot, e.v.answer.at, None);
        Definitive(e.v.answer.usage) || previous.None? || previous.value.error.Some?)
    && su.cached && slot.fingerprint.Some? && e.v.answer.writable
  }

  /** What was fetched, when, and with which credential file. */
  datatype Entry = Entry(fingerprint: string, usage: AccountUsage, at: real)

  /** The last outcome of any kind that the run has written, with any credential file. */
  function LastWrite(su: Setup, start: Option<string>, es: seq<Event>): Option<Entry> {
    if es == [] then None
    else
      var slot, e := Run(su, start, es[..|es| - 1]), es[|es| - 1];
      if Writes(su, slot, e) then Some(Entry(slot.fingerprint.value, e.v.answer.usage, e.v.answer.at))
      else LastWrite(su, start, es[..|es| - 1])
  }

  /**
   * The cache file is the last one written; a success in it is the latest outcome written for its credential file.
   */
  predicate Honest(su: Setup, start: Option<string>, es: seq<Event>) {
    var file, last := Run(su, start, es).file, LastWrite(su, start, es);
    match last
    case None => file == None
    case Some(Entry(f, u, at)) =>
      && su.cached && file == Some(CacheEntry(su, f, u, at))
      && (u.error.None? ==> LatestWritten(su, start, es, f) == Some(Answer(u, at, true)))
  }

  lemma StepStaysHonest(su: Setup, start: Option<string>, es: seq<Event>)
    requires es != [] && Honest(su, start, es[..|es| - 1])
    ensures Honest(su, start, es)
  {
    var front, e := es[..|es| - 1], es[|es| - 1];
    var slot, after := Run(su, start, front), Run(su, start, es);
    if !Writes(su, slot, e) {
      assert after.file == slot.file;
    }
  }

  lemma {:induction false} RunStaysHonest(su: Setup, start: Option<string>, es: seq<Event>)
    ensures Honest(su, start, es)
  {
    if es != [] {
      RunStaysHonest(su, start, es[..|es| - 1]);
      StepStaysHonest(su, start, es);
    }
  }

  /**
   * Over any run: a report without error is this fetch's own success, or the latest success written for the current
   * credential file; and a report that is not of this fetch leaves the cache file, and so its age, as it is.
   */
  lemma ReportsAreWrittenSuccesses(su: Setup, start: Option<string>, es: seq<Event>, e: Event)
    requires e.Visits?
    ensures var slot := Run(su, start, es);
      var (after, report) := Report(su, slot, e.v);
      report.error.None? && slot.fingerprint.Some? ==>
        if OutcomeOf(su, slot, e, slot.fingerprint.value).Some? then report == e.v.answer.usage
        else
          var written := LatestWritten(su, start, es, slot.fingerprint.value);
          written.Some? && written.value.usage == report && after == slot
  {
    var slot := Run(su, start, es);
    RunStaysHonest(su, start, es);
    if LastWrite(su, start, es).Some? {
      var last := LastWrite(su, start, es).value;
      ReadBack(su, slot, last.fingerprint, last.usage, last.at, e.v.now, Some(e.v.ttl));
      ReadBack(su, slot, last.fingerprint, last.usage, last.at, e.v.answer.at, None);
    }
  }

  lemma {:induction false} WrittenIsLatest(su: Setup, start: Option<string>, es: seq<Event>, f: string)
    ensures var latest, written := Latest(su, start, es, f), LatestWritten(su, start, es, f);
      && (written.Some? ==> latest.Some?)
      && (latest.Some? && latest.value.writable ==> written == latest)
  {
    if es != [] {
      WrittenIsLatest(su, start, es[..|es| - 1], f);
    }
  }

  /** The latest definitive outcome for the credential file was written, or says what the last written one says. */
  predicate Remembered(su: Setup, start: Option<string>, es: seq<Event>, f: string) {
    var latest, written := Latest(su, start, es, f), LatestWritten(su, start, es, f);
    latest.Some? && (latest.value.writable || (written.Some? && written.value.usage == latest.value.usage))
  }

  /**
   * The cache agrees with history. Over any run of fetches, refreshes and credential changes, a report without error
   * is the latest definitive outcome for the current credential file, this fetch included, exactly if that outcome is
   * of this fetch or is remembered. Outcomes before it need not have been written.
   */
  lemma ReportsAreTheLatestSuccess(su: Setup, start: Option<string>, es: seq<Event>, e: Event)
    requires e.Visits?
    ensures var slot := Run(su, start, es);
      var report := Report(su, slot, e.v).1;
      report.error.None? && slot.fingerprint.Some? ==>
        var f := slot.fingerprint.value;
        var latest := Latest(su, start, es + [e], f);
        (latest.Some? && latest.value.usage == report)
          <==> (OutcomeOf(su, slot, e, f).Some? || Remembered(su, start, es, f))
  {
    assert (es + [e])[..|es|] == es;
    ReportsAreWrittenSuccesses(su, start, es, e);
    var slot := Run(su, start, es);
    if slot.fingerprint.Some? {
      WrittenIsLatest(su, start, es, slot.fingerprint.value);
    }
  }

  /**
   * What is served without a fetch, over any run, successes and failures alike: the last outcome written, exactly if
   * it is of the current credential file and no older than the limit. Its age counts from the fetch it is of.
   */
  lemma ServedIsFresh(su: Setup, start: Option<string>, es: seq<Event>, v: Visit)
    ensures var slot, last := Run(su, start, es), LastWrite(su, start, es);
      && Served(su, slot, v)
         == (if last.Some? && slot.fingerprint == Some(last.value.fingerprint)
               && !v.refresh && v.ttl > 0.0 && v.now - last.value.at <= v.ttl
             then Some(last.value.usage) else None)
      && (last.Some? && last.value.usage.error.None? ==>
            LatestWritten(su, start, es, last.value.fingerprint) == Some(Answer(last.value.usage, last.value.at, true)))
  {
    RunStaysHonest(su, start, es);
    if LastWrite(su, start, es).Some? {
      var last := LastWrite(su, start, es).value;
      ReadBack(su, Run(su, start, es), last.fingerprint, last.usage, last.at, v.now, Some(v.ttl));
    }
  }

  /** The slot of a profile whose credential file is f and whose cache file holds a success fetched with it. */
  predicate HoldsSuccess(su: Setup, slot: Slot, f: string, u: AccountUsage, at: real) {
    su.cached && slot == Slot(Some(CacheEntry(su, f, u, at)), Some(f)) && u.error.None?
  }

  /** Until the next definitive outcome, a success outlives any passing failure. */
  lemma SuccessOutlivesFailures(su: Setup, slot: Slot, f: string, u: AccountUsage, at: real, v: Visit)
    requires HoldsSuccess(su, slot, f, u, at) && !Definitive(v.answer.usage)
    ensures Report(su, slot, v) == (slot, u)
  {
    ReadBack(su, slot, f, u, at, v.now, Some(v.ttl));
    ReadBack(su, slot, f, u, at, v.answer.at, None);
  }

  /** What is read after a definitive outcome: that outcome if it could be written, else the success before it. */
  lemma ReadAfterOutcome(su: Setup, slot: Slot, f: string, u: AccountUsage, at: real, a: Answer, now: real, ttl: real)
    requires HoldsSuccess(su, slot, f, u, at) && Definitive(a.usage)
    requires ttl > 0.0 && now - at <= ttl && now - a.at <= ttl
    ensures ReadCache(su, Settle(su, slot, a).0, now, Some(ttl)) == Some(if a.writable then a.usage else u)
  {
    var after := Settle(su, slot, a).0;
    if a.writable {
      ReadBack(su, after, f, a.usage, a.at, now, Some(ttl));
    } else {
      ReadBack(su, after, f, u, at, now, Some(ttl));
    }
  }

  /**
   * A refusal of the credentials is forgotten, and the success before it served again, exactly if it cannot be
   * written.
   */
  lemma UnwrittenRefusalIsForgotten(
    su: Setup, slot: Slot, f: string, u: AccountUsage, at: real, a: Answer, now: real, ttl: real)
    requires HoldsSuccess(su, slot, f, u, at) && IsAuthExpired(a.usage.error)
    requires ttl > 0.0 && now - at <= ttl && now - a.at <= ttl
    ensures var read := ReadCache(su, Settle(su, slot, a).0, now, Some(ttl));
      read.Some? && (read.value.error.None? <==> !a.writable)
  {
    ReadAfterOutcome(su, slot, f, u, at, a, now, ttl);
  }

  /** A later success that differs is served exactly if it can be written. */
  lemma UnwrittenSuccessIsForgotten(
    su: Setup, slot: Slot, f: string, u: AccountUsage, at: real, a: Answer, now: real, ttl: real)
    requires HoldsSuccess(su, slot, f, u, at) && a.usage.error.None? && a.usage != u
    requires ttl > 0.0 && now - at <= ttl && now - a.at <= ttl
    ensures ReadCache(su, Settle(su, slot, a).0, now, Some(ttl)) == Some(a.usage) <==> a.writable
  {
    ReadAfterOutcome(su, slot, f, u, at, a, now, ttl);
  }

  // ---------------------------------------------------------------- in place

  /** The slot of a profile among all cache files and readable credential files. */
  function SlotIn(files: map<string, Json>, p: string, marks: map<string, string>): Slot {
    Slot(if p in files then Some(files[p]) else None, if p in marks then Some(marks[p]) else None)
  }

  class UsageCacheDir {
    const su: Setup
    /** The cache files, by profile. */
    var files: map<string, Json>

    constructor (su: Setup)
      ensures this.su == su && files == map[]
    {
      this.su := su;
      files := map[];
    }

    function SlotOf(p: string, marks: map<string, string>): Slot
      reads this
    {
      SlotIn(files, p, marks)
    }

    ghost predicate OthersSame(before: map<string, Json>, p: string)
      reads this
    {
      forall q :: q != p ==> (q in files <==> q in before) && (q in before ==> files[q] == before[q])
    }

    /** One fetch has completed: its outcome is stored, or replaced by the last success. */
    method SettleOne(p: string, a: Answer, marks: map<string, string>) returns (usage: AccountUsage)
      modifies this
      ensures (SlotOf(p, marks), usage) == Settle(su, old(SlotOf(p, marks)), a)
      ensures OthersSame(old(files), p)
    {
      usage := a.usage;
      var slot := SlotOf(p, marks);
      if !Definitive(usage) {
        var previous := ReadCache(su, slot, a.at, None);
        if previous.Some? && previous.value.error.None? {
          return previous.value;
        }
      }
      var after := WriteCache(su, slot, usage, a.at, a.writable);
      if after.file.Some? {
        files := files[p := after.file.value];
      }
    }

    /** The profiles that can be served without a fetch. */
    method LookUp(profiles: seq<string>, visits: map<string, Visit>, marks: map<string, string>)
      returns (results: map<string, AccountUsage>)
      requires forall p :: p in profiles ==> p in visits
      ensures forall p :: p in profiles ==>
        var served := Served(su, SlotOf(p, marks), visits[p]);
        served.Some? ==> p in results && results[p] == served.value
    {
      results := map[];
      for i := 0 to |profiles|
        invariant forall j :: 0 <= j < i ==>
          var served := Served(su, SlotOf(profiles[j], marks), visits[profiles[j]]);
          served.Some? ==> profiles[j] in results && results[profiles[j]] == served.value
      {
        var p := profiles[i];
        var cached := Served(su, SlotOf(p, marks), visits[p]);
        if cached.Some? {
          results := results[p := cached.value];
        }
      }
    }

    predicate Settled(p: string, v: Visit, before: Slot, marks: map<string, string>, results: map<string, AccountUsage>)
      reads this
    {
      p in results && (SlotOf(p, marks), results[p]) == Settle(su, before, v.answer)
    }

    method SettleAll(
      order: seq<string>, visits: map<string, Visit>, marks: map<string, string>, served: map<string, AccountUsage>)
      returns (results: map<string, AccountUsage>)
      requires forall p :: p in order ==> p in visits
      requires forall i, j :: 0 <= i < j < |order| ==> order[i] != order[j]
      modifies this
      ensures forall i :: 0 <= i < |order| ==>
        Settled(order[i], visits[order[i]], SlotIn(old(files), order[i], marks), marks, results)
      ensures forall p :: p !in order ==>
        SlotOf(p, marks) == SlotIn(old(files), p, marks) && (p in served ==> p in results && results[p] == served[p])
    {
      results := served;
      for n := 0 to |order|
        invariant forall i :: 0 <= i < n ==>
          Settled(order[i], visits[order[i]], SlotIn(old(files), order[i], marks), marks, results)
        invariant forall p :: p !in order[..n] ==>
          SlotOf(p, marks) == SlotIn(old(files), p, marks) && (p in served ==> p in results && results[p] == served[p])
      {
        var p := order[n];
        assert p !in order[..n];
        var usage := SettleOne(p, visits[p].answer, marks);
        results := results[p := usage];
      }
    }

    /**
     * `fetch_profile_usage`: the cache is looked up for all profiles first; then the fetches settle in the order in
     * which they complete.
     */
    method FetchProfileUsage(
      profiles: seq<string>, visits: map<string, Visit>, marks: map<string, string>, order: seq<string>)
      returns (results: map<string, AccountUsage>)
      requires forall p :: p in profiles ==> p in visits
      requires forall i, j :: 0 <= i < j < |order| ==> order[i] != order[j]
      requires forall p :: p in order <==> p in profiles && Served(su, SlotOf(p, marks), visits[p]).None?
      modifies this
      ensures forall p :: p in profiles ==>
        p in results && (SlotOf(p, marks), results[p]) == Report(su, SlotIn(old(files), p, marks), visits[p])
      ensures forall p :: p !in profiles ==> SlotOf(p, marks) == SlotIn(old(files), p, marks)
    {
      var served := LookUp(profiles, visits, marks);
      ghost var before := files;
      assert forall p :: SlotOf(p, marks) == SlotIn(before, p, marks);
      results := SettleAll(order, visits, marks, served);
      forall p | p in profiles
        ensures p in results && (SlotOf(p, marks), results[p]) == Report(su, SlotIn(before, p, marks), visits[p])
      {
        if p in order {
          var i :| 0 <= i < |order| && order[i] == p;
          assert Settled(order[i], visits[order[i]], SlotIn(before, order[i], marks), marks, results);
        }
      }
    }
  }
}
