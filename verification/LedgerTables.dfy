/** The ledger as rows of two tables, one by day and one by day and hour.

    Rows without tokens are not written, so an hour that holds only a cost is lost; totals and
    cached counts are repaired on load.
 */
module LedgerTables {
  import opened Common
  import opened Days
  import opened Ledger
  import opened LedgerStore

  type Slot = (i32, Hour)

  datatype Database = Database(daily: map<i32, Tally>, hourly: map<Slot, Tally>)

  // ---------------------------------------------------------------- loading

  /** A row as it is taken over: the canonical total, and no more cached than input. */
  function Clipped(row: Tally): Tally { Repaired(row).(cached := Min(row.cached, row.input)) }

  predicate Suspect(row: Tally) { Repaired(row).total != row.total || row.cached > row.input }

  lemma ClippingRemovesSuspicion(row: Tally)
    ensures !Suspect(Clipped(row))
    ensures Clipped(row) == row <==> !Suspect(row)
    ensures Blank(Clipped(row)) <==> Blank(row)
  {}

  function HourAt(hourly: map<Slot, Tally>, key: i32, hour: nat): Tally {
    if hour < 24 && (key, hour) in hourly then Clipped(hourly[(key, hour)]) else Nothing()
  }

  function LoadedDay(db: Database, key: i32): UsageDay
    requires key in db.daily
  {
    UsageDay(Clipped(db.daily[key]), seq(24, h requires 0 <= h < 24 => HourAt(db.hourly, key, h)))
  }

  function LoadedDays(db: Database): map<i32, UsageDay> { map k | k in db.daily :: LoadedDay(db, k) }

  /** Some row that is taken over had to be repaired. Hours without a day are passed over. */
  ghost predicate NeedsRepair(db: Database) {
    || (exists k :: k in db.daily && Suspect(db.daily[k]))
    || (exists slot :: slot in db.hourly && slot.0 in db.daily && Suspect(db.hourly[slot]))
  }

  // ---------------------------------------------------------------- saving

  predicate Blank(row: Tally) { row.total == 0 && row.input == 0 && row.output == 0 }

  function Saved(days: map<i32, UsageDay>): Database {
    Database(map k | k in days :: days[k].sum,
             map k, h: Hour | k in days && 0 <= h < 24 && !Blank(days[k].hours[h]) :: (k, h) := days[k].hours[h])
  }

  lemma SavedHour(days: map<i32, UsageDay>, key: i32, hour: Hour)
    requires key in days
    ensures (key, hour) in Saved(days).hourly <==> !Blank(days[key].hours[hour])
    ensures !Blank(days[key].hours[hour]) ==> Saved(days).hourly[(key, hour)] == days[key].hours[hour]
  {}

  /** What an hour becomes when it is saved and loaded. */
  function Reloaded(row: Tally): Tally { if Blank(row) then Nothing() else Clipped(row) }

  lemma ReloadedHour(days: map<i32, UsageDay>, key: i32, hour: Hour)
    requires key in days
    ensures LoadedDay(Saved(days), key).hours[hour] == Reloaded(days[key].hours[hour])
  {
    SavedHour(days, key, hour);
  }

  /** An hour that survives: nothing to repair, and no cost or cached count without tokens. */
  predicate Survives(row: Tally) { !Suspect(row) && (Blank(row) ==> row == Nothing()) }

  ghost predicate DaySurvives(day: UsageDay) { !Suspect(day.sum) && forall h: Hour :: Survives(day.hours[h]) }

  lemma ReloadedDayIff(days: map<i32, UsageDay>, key: i32)
    requires key in days
    ensures LoadedDay(Saved(days), key) == days[key] <==> DaySurvives(days[key])
  {
    var day, loaded := days[key], LoadedDay(Saved(days), key);
    ClippingRemovesSuspicion(day.sum);
    forall h: Hour ensures loaded.hours[h] == day.hours[h] <==> Survives(day.hours[h]) {
      ReloadedHour(days, key, h);
      ClippingRemovesSuspicion(day.hours[h]);
    }
    if DaySurvives(day) { LedgerJournal.SameHours(loaded.hours, day.hours); }
  }

  /** Saving and loading the tables is the identity exactly when every day survives. */
  lemma SavingKeepsIff(days: map<i32, UsageDay>)
    ensures LoadedDays(Saved(days)) == days <==> forall k :: k in days ==> DaySurvives(days[k])
  {
    forall k | k in days ensures LoadedDays(Saved(days))[k] == days[k] <==> DaySurvives(days[k]) {
      ReloadedDayIff(days, k);
    }
    assert LoadedDays(Saved(days)).Keys == days.Keys;
    if forall k :: k in days ==> DaySurvives(days[k]) { assert LoadedDays(Saved(days)) == days; }
  }

  /** Whatever the tables hold, loading them, saving and loading again reports no repair. */
  lemma SecondLoadIsClean(db: Database)
    ensures !NeedsRepair(Saved(LoadedDays(db)))
  {
    var days := LoadedDays(db);
    var again := Saved(days);
    forall k | k in again.daily ensures !Suspect(again.daily[k]) { ClippingRemovesSuspicion(db.daily[k]); }
    forall slot | slot in again.hourly ensures !Suspect(again.hourly[slot]) { HourIsClean(db, slot.0, slot.1); }
  }

  lemma HourIsClean(db: Database, key: i32, hour: Hour)
    requires key in db.daily
    ensures !Suspect(LoadedDay(db, key).hours[hour])
  {
    if (key, hour) in db.hourly { ClippingRemovesSuspicion(db.hourly[(key, hour)]); }
  }

  /** Every hour that holds a cost also holds tokens. */
  ghost predicate CostsHaveTokens(days: map<i32, UsageDay>) {
    forall k, h: Hour :: k in days && days[k].hours[h].cost > 0 ==> !Blank(days[k].hours[h])
  }

  /** What was loaded survives the next save and load exactly if no hour holds a cost alone. */
  lemma SecondLoadKeepsIff(db: Database)
    ensures var days := LoadedDays(db); LoadedDays(Saved(days)) == days <==> CostsHaveTokens(days)
  {
    var days := LoadedDays(db);
    SavingKeepsIff(days);
    forall k | k in days ensures !Suspect(days[k].sum) { ClippingRemovesSuspicion(db.daily[k]); }
    forall k, h: Hour | k in days ensures !Suspect(days[k].hours[h]) { HourIsClean(db, k, h); }
    assert forall k :: k in days ==>
      (DaySurvives(days[k]) <==> forall h: Hour :: days[k].hours[h].cost > 0 ==> !Blank(days[k].hours[h]));
  }

  // ---------------------------------------------------------------- the loops

  lemma DayRowLoaded(daily: map<i32, Tally>, key: i32)
    requires key in daily
    ensures LoadedDays(Database(daily, map[]))
      == LoadedDays(Database(daily - {key}, map[]))[key := UsageDay(Clipped(daily[key]), NoHours())]
    ensures NeedsRepair(Database(daily, map[])) <==> NeedsRepair(Database(daily - {key}, map[])) || Suspect(daily[key])
  {
    assert seq(24, h requires 0 <= h < 24 => HourAt(map[], key, h)) == NoHours();
    assert forall k :: k in daily ==> k == key || k in daily - {key};
  }

  /** The days after one more hour's row has been taken over. */
  function WithRow(days: map<i32, UsageDay>, slot: Slot, row: Tally): map<i32, UsageDay> {
    if slot.0 !in days then days
    else days[slot.0 := days[slot.0].(hours := days[slot.0].hours[slot.1 := Clipped(row)])]
  }

  lemma HourRowLoadedDay(daily: map<i32, Tally>, hourly: map<Slot, Tally>, slot: Slot, key: i32)
    requires slot in hourly && key in daily
    ensures LoadedDay(Database(daily, hourly), key)
      == var before := LoadedDay(Database(daily, hourly - {slot}), key);
         if key == slot.0 then before.(hours := before.hours[slot.1 := Clipped(hourly[slot])]) else before
  {
    var before, after := LoadedDay(Database(daily, hourly - {slot}), key), LoadedDay(Database(daily, hourly), key);
    if key == slot.0 {
      assert after.hours == before.hours[slot.1 := Clipped(hourly[slot])];
    } else {
      assert after.hours == before.hours;
    }
  }

  lemma HourRowLoaded(daily: map<i32, Tally>, hourly: map<Slot, Tally>, slot: Slot)
    requires slot in hourly
    ensures LoadedDays(Database(daily, hourly))
      == WithRow(LoadedDays(Database(daily, hourly - {slot})), slot, hourly[slot])
  {
    forall key | key in daily { HourRowLoadedDay(daily, hourly, slot, key); }
  }

  lemma HourRowSuspected(daily: map<i32, Tally>, hourly: map<Slot, Tally>, slot: Slot)
    requires slot in hourly
    ensures NeedsRepair(Database(daily, hourly))
      <==> NeedsRepair(Database(daily, hourly - {slot})) || (slot.0 in daily && Suspect(hourly[slot]))
  {
    assert forall s :: s in hourly ==> s == slot || s in hourly - {slot};
  }

  method LoadDaily(daily: map<i32, Tally>) returns (days: map<i32, UsageDay>, repaired: bool)
    ensures days == LoadedDays(Database(daily, map[])) && (repaired <==> NeedsRepair(Database(daily, map[])))
  {
    days, repaired := map[], false;
    ghost var done: map<i32, Tally> := map[];
    var keys := daily.Keys;
    while keys != {}
      invariant keys <= daily.Keys && done == daily - keys
      invariant days == LoadedDays(Database(done, map[])) && (repaired <==> NeedsRepair(Database(done, map[])))
      decreases |keys|
    {
      var key :| key in keys;
      done := done[key := daily[key]];
      assert done - {key} == daily - keys;
      DayRowLoaded(done, key);
      repaired := repaired || Suspect(daily[key]);
      days := days[key := UsageDay(Clipped(daily[key]), NoHours())];
      keys := keys - {key};
    }
    assert done == daily;
  }

  method LoadTables(db: Database) returns (days: map<i32, UsageDay>, repaired: bool)
    ensures days == LoadedDays(db) && (repaired <==> NeedsRepair(db))
  {
    days, repaired := LoadDaily(db.daily);
    ghost var done: map<Slot, Tally> := map[];
    var slots := db.hourly.Keys;
    while slots != {}
      invariant slots <= db.hourly.Keys && done == db.hourly - slots
      invariant days == LoadedDays(Database(db.daily, done)) && (repaired <==> NeedsRepair(Database(db.daily, done)))
      decreases |slots|
    {
      var slot :| slot in slots;
      done := done[slot := db.hourly[slot]];
      assert done - {slot} == db.hourly - slots;
      HourRowLoaded(db.daily, done, slot);
      HourRowSuspected(db.daily, done, slot);
      repaired := repaired || (slot.0 in days && Suspect(db.hourly[slot]));
      days := WithRow(days, slot, db.hourly[slot]);
      slots := slots - {slot};
    }
    assert done == db.hourly;
  }

  method LoadSqlite(db: Database) returns (ledger: LocalUsageLedger)
    ensures fresh(ledger)
    ensures ledger.State() == LedgerState(map[], LoadedDays(db), NeedsRepair(db), 90)
  {
    ledger := new LocalUsageLedger();
    ledger.days, ledger.dirty := LoadTables(db);
  }

  /** The rows written for the first `n` hours of a day. */
  function RowsOf(key: i32, hours: Hours, n: nat): map<Slot, Tally> {
    map h: Hour | 0 <= h < 24 && h < n && !Blank(hours[h]) :: (key, h) := hours[h]
  }

  /** The hourly table, slot by slot. */
  lemma SavedSlot(days: map<i32, UsageDay>, slot: Slot)
    ensures slot in Saved(days).hourly <==> slot.0 in days && !Blank(days[slot.0].hours[slot.1])
    ensures slot in Saved(days).hourly ==> Saved(days).hourly[slot] == days[slot.0].hours[slot.1]
  {
    if slot.0 in days { SavedHour(days, slot.0, slot.1); }
  }

  lemma RowsSlot(key: i32, hours: Hours, slot: Slot)
    ensures slot in RowsOf(key, hours, 24) <==> slot.0 == key && !Blank(hours[slot.1])
    ensures slot in RowsOf(key, hours, 24) ==> RowsOf(key, hours, 24)[slot] == hours[slot.1]
  {}

  lemma DaySaved(days: map<i32, UsageDay>, key: i32)
    requires key in days
    ensures Saved(days).daily == Saved(days - {key}).daily[key := days[key].sum]
    ensures Saved(days).hourly == Saved(days - {key}).hourly + RowsOf(key, days[key].hours, 24)
  {
    var before, rows, after := Saved(days - {key}).hourly, RowsOf(key, days[key].hours, 24), Saved(days).hourly;
    forall slot: Slot
      ensures slot in before + rows <==> slot in after
      ensures slot in after ==> (before + rows)[slot] == after[slot]
    {
      SlotSaved(days, key, slot);
    }
  }

  lemma SlotSaved(days: map<i32, UsageDay>, key: i32, slot: Slot)
    requires key in days
    ensures var both := Saved(days - {key}).hourly + RowsOf(key, days[key].hours, 24);
      (slot in both <==> slot in Saved(days).hourly) && (slot in both ==> both[slot] == Saved(days).hourly[slot])
  {
    SavedSlot(days, slot);
    SavedSlot(days - {key}, slot);
    RowsSlot(key, days[key].hours, slot);
  }

  lemma DaySavedNext(days: map<i32, UsageDay>, keys: set<i32>, key: i32)
    requires key in keys && keys <= days.Keys
    ensures Saved(days - (keys - {key}))
      == var db := Saved(days - keys);
         Database(db.daily[key := days[key].sum], db.hourly + RowsOf(key, days[key].hours, 24))
  {
    assert days - (keys - {key}) - {key} == days - keys;
    DaySaved(days - (keys - {key}), key);
  }

  method SaveDay(key: i32, day: UsageDay, db: Database) returns (next: Database)
    ensures next == Database(db.daily[key := day.sum], db.hourly + RowsOf(key, day.hours, 24))
  {
    var rows := SaveHours(key, day.hours);
    next := Database(db.daily[key := day.sum], db.hourly + rows);
  }

  method SaveTables(days: map<i32, UsageDay>) returns (db: Database)
    ensures db == Saved(days)
  {
    db := Database(map[], map[]);
    var keys := days.Keys;
    NothingSaved(days);
    while keys != {}
      invariant keys <= days.Keys && db == Saved(days - keys)
      decreases |keys|
    {
      var key :| key in keys;
      DaySavedNext(days, keys, key);
      db := SaveDay(key, days[key], db);
      keys := keys - {key};
    }
    AllSaved(days, keys);
  }

  lemma AllSaved(days: map<i32, UsageDay>, keys: set<i32>)
    requires keys == {}
    ensures Saved(days - keys) == Saved(days)
  {
    assert days - keys == days;
  }

  lemma NothingSaved(days: map<i32, UsageDay>)
    ensures Saved(days - days.Keys) == Database(map[], map[])
  {
    assert days - days.Keys == map[];
  }

  method SaveSqlite(ledger: LocalUsageLedger) returns (db: Database)
    modifies ledger
    ensures db == Saved(old(ledger.days))
    ensures ledger.State() == old(ledger.State()).(dirty := false)
  {
    db := SaveTables(ledger.days);
    ledger.MarkPersisted();
  }

  method SaveHours(key: i32, hours: Hours) returns (rows: map<Slot, Tally>)
    ensures rows == RowsOf(key, hours, 24)
  {
    rows := map[];
    for hour := 0 to 24
      invariant rows == RowsOf(key, hours, hour)
    {
      if !Blank(hours[hour]) { rows := rows[(key, hour) := hours[hour]]; }
      assert rows == RowsOf(key, hours, hour + 1);
    }
  }
}
