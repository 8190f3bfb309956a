/**
 * The daily exchange-rate cache: one stored rate table per (date, base
 * currency), a pair the database keeps unique. The table is an `ExchangeRate`
 * database model; here it is an object holding a map from that key to the
 * stored rates, with the three operations the converter uses.
 */
module RateCache {
  import opened Options
  import opened Calendar

  /** Currency code to rate against the base currency. */
  type Rates = map<string, real>

  /** The stored snapshots, keyed by (date, base currency). */
  type Snapshots = map<(Day, string), Rates>

  /** The dates for which a snapshot exists for `base`. */
  ghost function DatesFor(snaps: Snapshots, base: string): set<Day> {
    set k | k in snaps && k.1 == base :: k.0
  }

  /** The greatest element of a non-empty finite set of dates. */
  ghost function Latest(ds: set<Day>): (m: Day)
    requires ds != {}
    ensures m in ds && forall d :: d in ds ==> d <= m
    decreases ds
  {
    assert exists d :: d in ds by {
      if forall d :: d !in ds {
        assert false;
      }
    }
    var d :| d in ds;
    if ds == {d} then
      d
    else
      var rest := Latest(ds - {d});
      assert forall e :: e in ds ==> e == d || e in ds - {d};
      if d > rest then d else rest
  }

  /** The snapshot of the latest date stored for `base`, whatever that date is. */
  ghost function MostRecentSnapshot(snaps: Snapshots, base: string): (r: Option<Rates>)
    ensures r.None? <==> forall k :: k in snaps ==> k.1 != base
    ensures r.Some? ==> exists d :: (d, base) in snaps && snaps[(d, base)] == r.value &&
                                    forall k :: k in snaps && k.1 == base ==> k.0 <= d
  {
    var ds := DatesFor(snaps, base);
    assert forall k :: k in snaps && k.1 == base ==> k.0 in ds;
    if ds == {} then None
    else
      var d := Latest(ds);
      assert exists k :: k in snaps && k.1 == base && k.0 == d;
      Some(snaps[(d, base)])
  }

  /** The latest date is the only date that is stored and not exceeded. */
  lemma LatestUnique(ds: set<Day>, d: Day)
    requires d in ds && forall e :: e in ds ==> e <= d
    ensures Latest(ds) == d
  {
  }

  /** A snapshot saved for a date no earlier than every stored one is the most recent one afterwards. */
  lemma SaveNewestIsMostRecent(snaps: Snapshots, base: string, today: Day, rates: Rates)
    requires forall d :: d in DatesFor(snaps, base) ==> d <= today
    ensures MostRecentSnapshot(snaps[(today, base) := rates], base) == Some(rates)
  {
    var snaps' := snaps[(today, base) := rates];
    assert today in DatesFor(snaps', base);
    forall e | e in DatesFor(snaps', base)
      ensures e <= today
    {
      if e != today {
        assert (e, base) in snaps;
        assert e in DatesFor(snaps, base);
      }
    }
    LatestUnique(DatesFor(snaps', base), today);
  }

  /** A base with any stored snapshot has a most recent one. */
  lemma StoredBaseHasSnapshot(snaps: Snapshots, base: string, d: Day)
    ensures (d, base) in snaps ==> MostRecentSnapshot(snaps, base).Some?
  {
    if (d, base) in snaps {
      assert d in DatesFor(snaps, base);
    }
  }

  /** The most recent snapshot of one base ignores every snapshot of another base. */
  lemma MostRecentIgnoresOtherBases(snaps: Snapshots, base: string, other: string, day: Day, rates: Rates)
    requires other != base
    ensures MostRecentSnapshot(snaps[(day, other) := rates], base) == MostRecentSnapshot(snaps, base)
  {
    assert DatesFor(snaps[(day, other) := rates], base) == DatesFor(snaps, base);
  }

  /** The cache table. */
  class RateStore {
    var snapshots: Snapshots

    constructor ()
      ensures snapshots == map[]
    {
      snapshots := map[];
    }

    /** Today's stored rates for `base`, if any (`get_latest_rates`). */
    method TodaysRates(base: string, today: Day) returns (r: Option<Rates>)
      ensures r.Some? <==> (today, base) in snapshots
      ensures r.Some? ==> r.value == snapshots[(today, base)]
    {
      if (today, base) in snapshots {
        r := Some(snapshots[(today, base)]);
      } else {
        r := None;
      }
    }

    /** Stores `rates` as today's snapshot for `base`, replacing any earlier one of today (`save_rates`). */
    method SaveRates(rates: Rates, base: string, today: Day)
      modifies this
      ensures snapshots == old(snapshots)[(today, base) := rates]
    {
      snapshots := snapshots[(today, base) := rates];
    }

    /**
     * The snapshot with the latest date for `base`, of any date: the query
     * filtered by base currency, ordered by date descending, first row.
     */
    method MostRecent(base: string) returns (r: Option<Rates>)
      ensures r == MostRecentSnapshot(snapshots, base)
    {
      var pending := snapshots.Keys;
      var best: Option<Day> := None;
      while pending != {}
        invariant pending <= snapshots.Keys
        invariant best.Some? ==> (best.value, base) in snapshots
        invariant forall k :: k in snapshots && k !in pending && k.1 == base ==> best.Some? && k.0 <= best.value
        decreases pending
      {
        var k :| k in pending;
        if k.1 == base && (best.None? || k.0 > best.value) {
          best := Some(k.0);
        }
        pending := pending - {k};
      }
      match best
      case None =>
        assert DatesFor(snapshots, base) == {};
        r := None;
      case Some(d) =>
        forall e | e in DatesFor(snapshots, base)
          ensures e <= d
        {
          assert (e, base) in snapshots;
        }
        LatestUnique(DatesFor(snapshots, base), d);
        r := Some(snapshots[(d, base)]);
    }
  }
}
