/** What a scan leaves in the inventory, field by field (applySnapshot, upsertLocked and
    refreshWdaExpiryLocked in common/ioshost/manager.go). */
module DeviceDiscovery {
  import opened Text
  import opened DeviceInventory

  // ---------------------------------------------------------------- reading a scan's list

  /** One of the first n entries is this device. */
  predicate Listed(list: seq<Found>, n: nat, u: string)
    requires n <= |list|
  {
    exists i :: 0 <= i < n && list[i].udid == u
  }

  /** Entry i is the last of the first n for this device. */
  predicate LastAt(list: seq<Found>, n: nat, u: string, i: nat)
    requires n <= |list|
  {
    i < n && list[i].udid == u && forall k :: i < k < n ==> list[k].udid != u
  }

  /** Entry i is the last one that knows this field of the device. */
  predicate KnownLast(list: seq<Found>, n: nat, u: string, field: Info -> string, i: nat)
    requires n <= |list|
  {
    && i < n && list[i].udid == u && field(list[i].info) != ""
    && forall k :: i < k < n && list[k].udid == u ==> field(list[k].info) == ""
  }

  /** Entry i is the first one that knows this field of the device. */
  predicate KnownFirst(list: seq<Found>, n: nat, u: string, field: Info -> string, i: nat)
    requires n <= |list|
  {
    && i < n && list[i].udid == u && field(list[i].info) != ""
    && forall k :: 0 <= k < i && list[k].udid == u ==> field(list[k].info) == ""
  }

  predicate Unknown(list: seq<Found>, n: nat, u: string, field: Info -> string)
    requires n <= |list|
  {
    forall k :: 0 <= k < n && list[k].udid == u ==> field(list[k].info) == ""
  }

  /** What is learnt last is taken, and nothing learnt changes nothing. */
  ghost predicate TakesLast(list: seq<Found>, n: nat, u: string, field: Info -> string, before: Info, after: Info)
    requires n <= |list|
  {
    && (forall i: nat :: KnownLast(list, n, u, field, i) ==> field(after) == field(list[i].info))
    && (Unknown(list, n, u, field) ==> field(after) == field(before))
  }

  /** A known value is kept; otherwise what is learnt first is taken. */
  ghost predicate KeepsFirst(list: seq<Found>, n: nat, u: string, field: Info -> string, before: Info, after: Info)
    requires n <= |list|
  {
    && (field(before) != "" ==> field(after) == field(before))
    && (field(before) == "" ==>
          && (forall i: nat :: KnownFirst(list, n, u, field, i) ==> field(after) == field(list[i].info))
          && (Unknown(list, n, u, field) ==> field(after) == ""))
  }

  function Name(info: Info): string
  {
    info.name
  }

  function Model(info: Info): string
  {
    info.model
  }

  function Version(info: Info): string
  {
    info.version
  }

  // ---------------------------------------------------------------- the upsert loop

  /** Nothing but what a scan can see differs. */
  predicate SameBehind(before: Device, after: Device)
  {
    && after.account == before.account && after.local == before.local && after.lanOn == before.lanOn
    && after.controlOn == before.controlOn && after.lastError == before.lastError
  }

  ghost predicate InfoShown(before: Info, after: Info, list: seq<Found>, n: nat, u: string)
    requires n <= |list|
  {
    && KeepsFirst(list, n, u, Name, before, after)
    && TakesLast(list, n, u, Model, before, after)
    && TakesLast(list, n, u, Version, before, after)
  }

  /** The connection is that of the last listing. */
  ghost predicate ConnectionShown(before: Connection, after: Connection, list: seq<Found>, n: nat, u: string)
    requires n <= |list|
  {
    && (forall i: nat :: LastAt(list, n, u, i) ==> after == list[i].connection)
    && (!Listed(list, n, u) ==> after == before)
  }

  ghost predicate UpsertShown(before: Device, after: Device, list: seq<Found>, n: nat, u: string)
    requires n <= |list|
  {
    && (after.present <==> before.present || Listed(list, n, u))
    && ConnectionShown(before.connection, after.connection, list, n, u)
    && InfoShown(before.info, after.info, list, n, u)
    && SameBehind(before, after) && after.wda == before.wda
  }

  function Known(ds: Devices, u: string): Device
  {
    if u in ds then ds[u] else BLANK
  }

  lemma ListedNext(list: seq<Found>, n: nat, u: string)
    requires n < |list|
    ensures Listed(list, n + 1, u) <==> Listed(list, n, u) || list[n].udid == u
  {
    if Listed(list, n, u) {
      var i :| 0 <= i < n && list[i].udid == u;
      assert i < n + 1;
    }
  }

  lemma TakesLastNext(list: seq<Found>, n: nat, u: string, field: Info -> string, before: Info, mid: Info, after: Info)
    requires n < |list| && TakesLast(list, n, u, field, before, mid)
    requires field(after) == if list[n].udid == u && field(list[n].info) != "" then field(list[n].info) else field(mid)
    ensures TakesLast(list, n + 1, u, field, before, after)
  {
    forall i: nat | KnownLast(list, n + 1, u, field, i)
      ensures field(after) == field(list[i].info)
    {
      if i < n {
        assert KnownLast(list, n, u, field, i);
      }
    }
    if Unknown(list, n + 1, u, field) {
      assert Unknown(list, n, u, field);
    }
  }

  lemma SomeKnown(list: seq<Found>, n: nat, u: string, field: Info -> string) returns (i: nat)
    requires n <= |list| && !Unknown(list, n, u, field)
    ensures KnownFirst(list, n, u, field, i)
  {
    i := 0;
    while !(list[i].udid == u && field(list[i].info) != "")
      invariant i < n && forall k :: 0 <= k < i && list[k].udid == u ==> field(list[k].info) == ""
      decreases n - i
    {
      i := i + 1;
    }
  }

  lemma KeepsFirstNext(list: seq<Found>, n: nat, u: string, field: Info -> string, before: Info, mid: Info, after: Info)
    requires n < |list| && KeepsFirst(list, n, u, field, before, mid)
    requires field(after) == if list[n].udid == u && field(mid) == "" then field(list[n].info) else field(mid)
    ensures KeepsFirst(list, n + 1, u, field, before, after)
  {
    if field(before) == "" {
      forall i: nat | KnownFirst(list, n + 1, u, field, i)
        ensures field(after) == field(list[i].info)
      {
        if i < n {
          assert KnownFirst(list, n, u, field, i);
        } else {
          assert Unknown(list, n, u, field);
        }
      }
      if Unknown(list, n + 1, u, field) {
        assert Unknown(list, n, u, field);
      }
    }
  }

  lemma InfoNext(before: Info, mid: Info, list: seq<Found>, n: nat, u: string)
    requires n < |list| && InfoShown(before, mid, list, n, u)
    ensures InfoShown(before, if list[n].udid == u then Refreshed(mid, list[n].info) else mid, list, n + 1, u)
  {
    var after := if list[n].udid == u then Refreshed(mid, list[n].info) else mid;
    KeepsFirstNext(list, n, u, Name, before, mid, after);
    TakesLastNext(list, n, u, Model, before, mid, after);
    TakesLastNext(list, n, u, Version, before, mid, after);
  }

  lemma ConnectionNext(before: Connection, mid: Connection, list: seq<Found>, n: nat, u: string)
    requires n < |list| && ConnectionShown(before, mid, list, n, u)
    ensures ConnectionShown(before, if list[n].udid == u then list[n].connection else mid, list, n + 1, u)
  {
    ListedNext(list, n, u);
    var after := if list[n].udid == u then list[n].connection else mid;
    forall i: nat | LastAt(list, n + 1, u, i)
      ensures after == list[i].connection
    {
      if i < n {
        assert LastAt(list, n, u, i);
      }
    }
  }

  lemma UpsertNext(before: Device, mid: Device, list: seq<Found>, n: nat, u: string)
    requires n < |list| && UpsertShown(before, mid, list, n, u)
    ensures UpsertShown(before, if list[n].udid == u then Upserted(mid, list[n]) else mid, list, n + 1, u)
  {
    ListedNext(list, n, u);
    InfoNext(before.info, mid.info, list, n, u);
    ConnectionNext(before.connection, mid.connection, list, n, u);
  }

  lemma UpsertNone(d: Device, list: seq<Found>, u: string)
    ensures UpsertShown(d, d, list, 0, u)
  {
  }

  function Lookup(ds: Devices, u: string): Option<Device>
  {
    if u in ds then Some(ds[u]) else None
  }

  function OrBlank(d: Option<Device>): Device
  {
    if d.Some? then d.value else BLANK
  }

  /** The upsert loop as one device sees it. */
  function Upserts(d: Option<Device>, list: seq<Found>, n: nat, u: string): Option<Device>
    requires n <= |list|
  {
    if n == 0 then d
    else
      var d' := Upserts(d, list, n - 1, u);
      if list[n - 1].udid == u then Some(Upserted(OrBlank(d'), list[n - 1])) else d'
  }

  lemma {:induction false} UpsertsOfAll(devices: Devices, list: seq<Found>, n: nat, u: string)
    requires n <= |list|
    ensures Lookup(UpsertAll(devices, list, n).0, u) == Upserts(Lookup(devices, u), list, n, u)
  {
    if n > 0 {
      UpsertsOfAll(devices, list, n - 1, u);
    }
  }

  lemma {:induction false} UpsertsShow(d: Option<Device>, list: seq<Found>, n: nat, u: string)
    requires n <= |list|
    ensures UpsertShown(OrBlank(d), OrBlank(Upserts(d, list, n, u)), list, n, u)
  {
    if n == 0 {
      UpsertNone(OrBlank(d), list, u);
    } else {
      UpsertsShow(d, list, n - 1, u);
      UpsertNext(OrBlank(d), OrBlank(Upserts(d, list, n - 1, u)), list, n - 1, u);
    }
  }

  lemma {:induction false} UpsertsKnow(d: Option<Device>, list: seq<Found>, n: nat, u: string)
    requires n <= |list|
    ensures Upserts(d, list, n, u).Some? <==> d.Some? || Listed(list, n, u)
  {
    if n > 0 {
      UpsertsKnow(d, list, n - 1, u);
      ListedNext(list, n - 1, u);
    }
  }

  lemma UpsertAllShows(devices: Devices, list: seq<Found>, u: string)
    ensures var ds := UpsertAll(devices, list, |list|).0;
      && (u in ds <==> u in devices || Listed(list, |list|, u))
      && UpsertShown(Known(devices, u), Known(ds, u), list, |list|, u)
  {
    UpsertsOfAll(devices, list, |list|, u);
    UpsertsShow(Lookup(devices, u), list, |list|, u);
    UpsertsKnow(Lookup(devices, u), list, |list|, u);
  }

  // ---------------------------------------------------------------- the whole scan

  /** The clock moves a badge that promises control, and no other. */
  predicate BadgeShown(before: Wda, after: Wda, badge: Badge)
  {
    && after.expires == before.expires && after.progress == before.progress && after.stage == before.stage
    && if before.state in {Ready, Installed, RenewalDue} && badge in {Past, InWindow} then
         after.state == if badge == Past then Expired else RenewalDue
       else after.state == before.state
  }

  /** One device after a scan. */
  ghost predicate Scanned(before: Device, after: Device, list: seq<Found>, badges: (string, int) -> Badge, u: string)
  {
    && (after.present <==> Listed(list, |list|, u))
    && ConnectionShown(before.connection, after.connection, list, |list|, u)
    && InfoShown(before.info, after.info, list, |list|, u)
    && SameBehind(before, after)
    && BadgeShown(before.wda, after.wda,
                  badges(before.wda.expires, if before.local.renewDays > 0 then before.local.renewDays else 14))
  }

  /** A whole scan: listed devices are known, known ones stay known, and each shows it. */
  ghost predicate Discovered(before: Devices, after: Devices, list: seq<Found>, badges: (string, int) -> Badge)
  {
    && (forall u :: u in after <==> u in before || Listed(list, |list|, u))
    && (forall u :: u in after ==> Scanned(Known(before, u), after[u], list, badges, u))
  }

  lemma ListedArePresent(before: Devices, after: Devices, list: seq<Found>, badges: (string, int) -> Badge)
    requires Discovered(before, after, list, badges)
    ensures forall i :: 0 <= i < |list| ==> list[i].udid in after
    ensures forall u :: u in after ==> (after[u].present <==> exists i :: 0 <= i < |list| && list[i].udid == u)
  {
    forall i | 0 <= i < |list|
      ensures list[i].udid in after
    {
      assert Listed(list, |list|, list[i].udid);
    }
  }

  lemma SeenIsListed(list: seq<Found>, u: string)
    ensures u in Seen(list) <==> Listed(list, |list|, u)
  {
  }

  lemma SettledShows(before: Device, d: Device, list: seq<Found>, badges: (string, int) -> Badge, u: string)
    requires UpsertShown(before, d, list, |list|, u)
    ensures Scanned(before, Settled(d, Listed(list, |list|, u), badges), list, badges, u)
  {
  }

  /** Nothing is reported unless something changed, and then one snapshot of it. */
  predicate ToldOnce(s: State, s': State)
  {
    if s'.rev == s.rev then s' == s
    else s'.rev == s.rev + 1 && s'.snapshots == s.snapshots + [Taken(s')]
  }

  lemma {:induction false} UpsertQuiet(devices: Devices, list: seq<Found>, n: nat)
    requires n <= |list| && !UpsertAll(devices, list, n).1
    ensures UpsertAll(devices, list, n).0 == devices
  {
    if n > 0 {
      UpsertQuiet(devices, list, n - 1);
    }
  }

  lemma DiscoverTells(s: State, list: seq<Found>, badges: (string, int) -> Badge)
    ensures ToldOnce(s, ApplyDiscover(s, list, badges))
  {
    var s', ds := ApplyDiscover(s, list, badges), UpsertAll(s.devices, list, |list|).0;
    if s'.rev == s.rev {
      UpsertQuiet(s.devices, list, |list|);
      assert forall u :: u in ds ==> AgedTo(ds[u], badges).None? && (u in Seen(list) || !ds[u].present);
      assert SettleAll(ds, Seen(list), badges) == ds;
    }
  }

  lemma DiscoverShows(s: State, list: seq<Found>, badges: (string, int) -> Badge)
    ensures Discovered(s.devices, ApplyDiscover(s, list, badges).devices, list, badges)
    ensures ApplyDiscover(s, list, badges).enumerateError == ""
  {
    var ds := UpsertAll(s.devices, list, |list|).0;
    forall u
      ensures u in ds <==> u in s.devices || Listed(list, |list|, u)
      ensures u in ds ==> Scanned(Known(s.devices, u), Settled(ds[u], u in Seen(list), badges), list, badges, u)
    {
      UpsertAllShows(s.devices, list, u);
      SeenIsListed(list, u);
      if u in ds {
        SettledShows(Known(s.devices, u), ds[u], list, badges, u);
      }
    }
  }
}
