/** Duplicate-safe storage of validated bars (data/storage/price_repository.py). */
module PriceStore {
  import opened MarketData
  import opened Validation

  datatype Row = Row(asset: int, bar: PriceBar)

  datatype Key = Key(interval: string, ts: int)

  function KeyOf(bar: PriceBar): Key {
    Key(bar.interval, bar.ts)
  }

  predicate Has(rows: seq<Row>, asset: int, key: Key) {
    exists i :: 0 <= i < |rows| && rows[i].asset == asset
                && rows[i].bar.interval == key.interval && rows[i].bar.ts == key.ts
  }

  /** The table after a batch: a bar whose key is already there, stored or earlier in the batch, is skipped. */
  function Upserted(rows: seq<Row>, asset: int, bars: seq<PriceBar>): seq<Row> {
    if bars == [] then rows else
      var before, last := Upserted(rows, asset, bars[..|bars| - 1]), bars[|bars| - 1];
      if Has(before, asset, KeyOf(last)) then before else before + [Row(asset, last)]
  }

  /** The natural key of the table. */
  ghost predicate Unique(rows: seq<Row>) {
    forall i, j | 0 <= i < j < |rows| ::
      rows[i].asset != rows[j].asset || rows[i].bar.interval != rows[j].bar.interval || rows[i].bar.ts != rows[j].bar.ts
  }

  class PriceTable {
    var rows: seq<Row>

    constructor ()
      ensures rows == []
    {
      rows := [];
    }

    method UpsertPriceBars(asset: int, bars: seq<PriceBar>) returns (inserted: nat, skipped: nat)
      modifies this
      ensures rows == Upserted(old(rows), asset, bars)
      ensures inserted == |rows| - |old(rows)| && inserted + skipped == |bars|
    {
      if bars == [] {
        return 0, 0;
      }
      var intervals := set bar | bar in bars :: bar.interval;
      var existing := set row | row in rows && row.asset == asset && row.bar.interval in intervals :: KeyOf(row.bar);
      inserted, skipped := 0, 0;
      var seenInBatch: set<Key> := {};
      for i := 0 to |bars|
        invariant rows == Upserted(old(rows), asset, bars[..i])
        invariant inserted == |rows| - |old(rows)| && inserted + skipped == i
        invariant forall key: Key | key.interval in intervals ::
                    Has(rows, asset, key) <==> key in existing || key in seenInBatch
      {
        var key := KeyOf(bars[i]);
        assert bars[..i + 1][..i] == bars[..i];
        assert bars[i].interval in intervals;
        if key in existing || key in seenInBatch {
          skipped := skipped + 1;
          continue;
        }
        seenInBatch := seenInBatch + {key};
        OneMoreRow(rows, Row(asset, bars[i]));
        rows := rows + [Row(asset, bars[i])];
        inserted := inserted + 1;
      }
      assert bars[..|bars|] == bars;
    }
  }

  lemma OneMoreRow(rows: seq<Row>, row: Row)
    ensures forall asset, key ::
              Has(rows + [row], asset, key) <==> Has(rows, asset, key) || (asset == row.asset && key == KeyOf(row.bar))
  {
    var more := rows + [row];
    forall asset, key
      ensures Has(more, asset, key) <==> Has(rows, asset, key) || (asset == row.asset && key == KeyOf(row.bar))
    {
      if i :| 0 <= i < |rows| && rows[i].asset == asset && KeyOf(rows[i].bar) == key {
        assert more[i] == rows[i];
      }
      assert more[|rows|] == row;
    }
  }

  /** Stored rows are never touched, the natural key stays unique, and exactly the keys of the batch are
      added, whatever duplicates it holds. */
  lemma {:induction false} UpsertKeepsTable(rows: seq<Row>, asset: int, bars: seq<PriceBar>)
    requires Unique(rows)
    ensures var after := Upserted(rows, asset, bars);
      && rows <= after && Unique(after)
      && (forall other, key :: Has(after, other, key) <==>
            Has(rows, other, key) || (other == asset && exists i :: 0 <= i < |bars| && KeyOf(bars[i]) == key))
    decreases |bars|
  {
    if bars != [] {
      var front, last := bars[..|bars| - 1], bars[|bars| - 1];
      UpsertKeepsTable(rows, asset, front);
      OneMoreRow(Upserted(rows, asset, front), Row(asset, last));
      UniqueSnoc(Upserted(rows, asset, front), Row(asset, last));
      hide Unique, Has;
      forall other, key
        ensures Has(Upserted(rows, asset, bars), other, key) <==>
                Has(rows, other, key) || (other == asset && exists i :: 0 <= i < |bars| && KeyOf(bars[i]) == key)
      {
        assert bars[|bars| - 1] == last;
        assert forall i | 0 <= i < |front| :: bars[i] == front[i];
      }
    }
  }

  lemma UniqueSnoc(rows: seq<Row>, row: Row)
    requires Unique(rows)
    ensures !Has(rows, row.asset, KeyOf(row.bar)) ==> Unique(rows + [row])
  {
  }

  /** Storing bars whose keys are all there changes nothing. */
  lemma {:induction false} NothingNew(rows: seq<Row>, asset: int, bars: seq<PriceBar>)
    requires forall i | 0 <= i < |bars| :: Has(rows, asset, KeyOf(bars[i]))
    ensures Upserted(rows, asset, bars) == rows
    decreases |bars|
  {
    if bars != [] {
      NothingNew(rows, asset, bars[..|bars| - 1]);
    }
  }

  /** Running the same batch again, or any batch drawn from it, inserts nothing. */
  lemma UpsertIsIdempotent(rows: seq<Row>, asset: int, bars: seq<PriceBar>, again: seq<PriceBar>)
    requires Unique(rows) && forall bar | bar in again :: bar in bars
    ensures Upserted(Upserted(rows, asset, bars), asset, again) == Upserted(rows, asset, bars)
  {
    hide Upserted, Has, Unique;
    UpsertKeepsTable(rows, asset, bars);
    forall i | 0 <= i < |again| ensures Has(Upserted(rows, asset, bars), asset, KeyOf(again[i])) {
      assert again[i] in bars;
    }
    NothingNew(Upserted(rows, asset, bars), asset, again);
  }

  function RowsOf(asset: int, bars: seq<PriceBar>): seq<Row> {
    seq(|bars|, i requires 0 <= i < |bars| => Row(asset, bars[i]))
  }

  /** A validated delivery holds no duplicates: into a table without its keys every bar goes in, in time
      order; and validating and storing what was stored inserts nothing more. */
  lemma ValidatedBarsAllStored(rows: seq<Row>, asset: int, readings: seq<Reading>, now: int, later: int)
    requires Unique(rows) && now <= later
    requires forall bar | bar in Validate(readings, now).valid :: !Has(rows, asset, KeyOf(bar))
    ensures var valid := Validate(readings, now).valid;
      && Upserted(rows, asset, valid) == rows + RowsOf(asset, valid)
      && Upserted(Upserted(rows, asset, valid), asset, Validate(AsReadings(valid), later).valid)
         == Upserted(rows, asset, valid)
  {
    hide Upserted, Has, Unique, Validate, RowsOf;
    var valid := Validate(readings, now).valid;
    ValidInTime(readings, now);
    AllNew(rows, asset, valid);
    RevalidationIsClean(readings, now, later);
    UpsertIsIdempotent(rows, asset, valid, valid);
  }

  lemma ValidInTime(readings: seq<Reading>, now: int)
    ensures StrictlyInTime(Validate(readings, now).valid)
  {
    ValidBarsExactly(readings, now, PriceBar(0, 0.0, 0.0, 0.0, 0.0, 0, "", ""));
  }

  lemma {:induction false} AllNew(rows: seq<Row>, asset: int, bars: seq<PriceBar>)
    requires StrictlyInTime(bars) && forall bar | bar in bars :: !Has(rows, asset, KeyOf(bar))
    ensures Upserted(rows, asset, bars) == rows + RowsOf(asset, bars)
    decreases |bars|
  {
    if bars != [] {
      var front, last := bars[..|bars| - 1], bars[|bars| - 1];
      AllNew(rows, asset, front);
      assert RowsOf(asset, bars) == RowsOf(asset, front) + [Row(asset, last)];
      assert !Has(rows, asset, KeyOf(last));
      StillNew(rows, asset, front, last);
    }
  }

  lemma StillNew(rows: seq<Row>, asset: int, front: seq<PriceBar>, last: PriceBar)
    requires !Has(rows, asset, KeyOf(last)) && forall i | 0 <= i < |front| :: front[i].ts != last.ts
    ensures !Has(rows + RowsOf(asset, front), asset, KeyOf(last))
  {
    var all := rows + RowsOf(asset, front);
    forall i | 0 <= i < |all| ensures all[i].asset != asset || KeyOf(all[i].bar) != KeyOf(last) {
      if i >= |rows| {
        assert all[i] == Row(asset, front[i - |rows|]);
      } else {
        assert all[i] == rows[i];
      }
    }
  }
}
