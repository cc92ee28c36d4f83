/** The assembly of the 36 series into the Moon's geocentric position.

    Table `i` feeds coordinate `i mod 3`: longitude, latitude or distance.
    The longitude and latitude sums are in arcseconds; the mean longitude W1 is
    added to the longitude, and both are turned into radians.  The distance is
    used as it is.  The Cartesian state is then built from the spherical one;
    its velocity is the rate with respect to `t`, in Julian centuries, divided
    by the seconds of a Julian century, so that it is a rate per second. */
module Assembly {

  import opened Numerics
  import opened Records
  import opened FundamentalArguments
  import opened Dispatch

  /** Every table of the store is present and has its own layout. */
  predicate StoreShaped(tables: seq<seq<Record>>) {
    |tables| >= TABLE_COUNT && forall i :: 0 <= i < TABLE_COUNT ==> TableShaped(i, tables[i])
  }

  /** The scaled series of every table, in table order. */
  function FileValues(tables: seq<seq<Record>>, t: real, trig: Trig): (vs: seq<Dual>)
    requires StoreShaped(tables)
    ensures |vs| == TABLE_COUNT
  {
    FileValuesUpTo(tables, t, trig, TABLE_COUNT)
  }

  function FileValuesUpTo(tables: seq<seq<Record>>, t: real, trig: Trig, n: nat): (vs: seq<Dual>)
    requires StoreShaped(tables) && n <= TABLE_COUNT
    ensures |vs| == n
  {
    if n == 0 then [] else FileValuesUpTo(tables, t, trig, n - 1) + [FileSeries(tables, n - 1, t, trig).value]
  }

  lemma {:induction false} FileValueAt(tables: seq<seq<Record>>, t: real, trig: Trig, n: nat, i: nat)
    requires StoreShaped(tables) && i < n <= TABLE_COUNT
    ensures FileValuesUpTo(tables, t, trig, n)[i] == FileSeries(tables, i, t, trig).value
  {
    var prefix := FileValuesUpTo(tables, t, trig, n - 1);
    var last := FileSeries(tables, n - 1, t, trig).value;
    assert FileValuesUpTo(tables, t, trig, n) == prefix + [last];
    if i < n - 1 {
      FileValueAt(tables, t, trig, n - 1, i);
      assert (prefix + [last])[i] == prefix[i];
    }
  }

  /** The sum of the values of coordinate `slot` (table `3 * j + slot`) over
      the first `groups` groups. */
  function SlotSum(vs: seq<Dual>, slot: nat, groups: nat): Dual
    requires slot < 3 && 3 * groups <= |vs|
    decreases groups
  {
    if groups == 0 then Zero() else Add(SlotSum(vs, slot, groups - 1), vs[3 * (groups - 1) + slot])
  }

  /** The sum of the first `m` values. */
  function TotalSum(vs: seq<Dual>, m: nat): Dual
    requires m <= |vs|
    decreases m
  {
    if m == 0 then Zero() else Add(TotalSum(vs, m - 1), vs[m - 1])
  }

  /** Longitude and latitude in radians and distance, each with its rate per
      Julian century. */
  datatype Spherical = Spherical(lon: Dual, lat: Dual, r: Dual)

  /** The spherical position from the scaled series of the 36 tables: slot 0
      plus W1 for the longitude, slot 1 for the latitude, both from arcseconds
      to radians; slot 2 for the distance. */
  function Assemble(vs: seq<Dual>, t: real, trig: Trig): Spherical
    requires |vs| == TABLE_COUNT
  {
    Spherical(RadiansOf(ArcsecondsToDegrees(Add(SlotSum(vs, 0, 12), MeanLongitude(t))), trig),
              RadiansOf(ArcsecondsToDegrees(SlotSum(vs, 1, 12)), trig),
              SlotSum(vs, 2, 12))
  }

  /** The spherical position at time `t`. */
  function Position(tables: seq<seq<Record>>, t: real, trig: Trig): Spherical
    requires StoreShaped(tables)
  {
    Assemble(FileValues(tables, t, trig), t, trig)
  }

  // ---------------------------------------------------------------------
  // The three coordinates partition the tables

  /** Group `q` adds the table of coordinate `slot` to that coordinate's sum. */
  lemma SlotSumStep(vs: seq<Dual>, slot: nat, q: nat, k: nat, value: real, derivative: real, f: Dual)
    requires slot < 3 && 3 * q + 3 <= |vs| && k == 3 * q + slot
    requires Dual(value, derivative) == SlotSum(vs, slot, q) && f == vs[k]
    ensures Dual(value + f.value, derivative + f.derivative) == SlotSum(vs, slot, q + 1)
  {
  }

  /** Every table is counted in exactly one coordinate: over the first
      `groups` groups, the three coordinate sums together are the sum of the
      first `3 * groups` tables. */
  lemma {:induction false} SlotsPartitionTables(vs: seq<Dual>, groups: nat)
    requires 3 * groups <= |vs|
    ensures Add(Add(SlotSum(vs, 0, groups), SlotSum(vs, 1, groups)), SlotSum(vs, 2, groups)) == TotalSum(vs, 3 * groups)
  {
    if groups > 0 {
      SlotsPartitionTables(vs, groups - 1);
      var m := 3 * (groups - 1);
      assert TotalSum(vs, m + 1) == Add(TotalSum(vs, m), vs[m]);
      assert TotalSum(vs, m + 2) == Add(TotalSum(vs, m + 1), vs[m + 1]);
      assert TotalSum(vs, 3 * groups) == Add(TotalSum(vs, m + 2), vs[m + 2]);
    }
  }

  // ---------------------------------------------------------------------
  // The accumulation loop

  /** The twelve groups of three tables, accumulated slot by slot, then W1 and
      the conversion to radians. */
  method CalcAll(tables: seq<seq<Record>>, t: real, trig: Trig) returns (model: Spherical)
    requires StoreShaped(tables)
    ensures model == Position(tables, t, trig)
  {
    var lon, dlon, lat, dlat, r, dr := AccumulateGroups(tables, t, trig);
    var W1 := MeanLongitude(t);
    AssembleInDegrees(FileValues(tables, t, trig), t, trig, lon, dlon, lat, dlat, r, dr, W1);
    model := Spherical(Dual(Deg2Rad((lon + W1.value) / 3600.0, trig), Deg2Rad((dlon + W1.derivative) / 3600.0, trig)),
                       Dual(Deg2Rad(lat / 3600.0, trig), Deg2Rad(dlat / 3600.0, trig)),
                       Dual(r, dr));
  }

  /** The loop over the twelve groups: each adds its longitude, latitude and
      distance table to the sum of its coordinate. */
  method AccumulateGroups(tables: seq<seq<Record>>, t: real, trig: Trig)
    returns (lon: real, dlon: real, lat: real, dlat: real, r: real, dr: real)
    requires StoreShaped(tables)
    ensures Dual(lon, dlon) == SlotSum(FileValues(tables, t, trig), 0, 12)
    ensures Dual(lat, dlat) == SlotSum(FileValues(tables, t, trig), 1, 12)
    ensures Dual(r, dr) == SlotSum(FileValues(tables, t, trig), 2, 12)
  {
    lon, dlon, lat, dlat, r, dr := 0.0, 0.0, 0.0, 0.0, 0.0, 0.0;
    ghost var vs := FileValues(tables, t, trig);
    for i := 0 to 12
      invariant Dual(lon, dlon) == SlotSum(vs, 0, i)
      invariant Dual(lat, dlat) == SlotSum(vs, 1, i)
      invariant Dual(r, dr) == SlotSum(vs, 2, i)
    {
      lon, dlon, lat, dlat, r, dr := AddGroup(tables, i, t, trig, vs, lon, dlon, lat, dlat, r, dr);
    }
  }

  /** One pass of the loop: group `q` adds its three tables to the sums of
      the first `q` groups. */
  method AddGroup(tables: seq<seq<Record>>, q: nat, t: real, trig: Trig, ghost vs: seq<Dual>,
                  lon: real, dlon: real, lat: real, dlat: real, r: real, dr: real)
    returns (lon': real, dlon': real, lat': real, dlat': real, r': real, dr': real)
    requires StoreShaped(tables) && q < 12 && vs == FileValues(tables, t, trig)
    requires Dual(lon, dlon) == SlotSum(vs, 0, q)
    requires Dual(lat, dlat) == SlotSum(vs, 1, q)
    requires Dual(r, dr) == SlotSum(vs, 2, q)
    ensures Dual(lon', dlon') == SlotSum(vs, 0, q + 1)
    ensures Dual(lat', dlat') == SlotSum(vs, 1, q + 1)
    ensures Dual(r', dr') == SlotSum(vs, 2, q + 1)
  {
    var f1, f2, f3 := CalcGroup(tables, q, t, trig);
    SlotSumStep(vs, 0, q, 3 * q, lon, dlon, f1);
    SlotSumStep(vs, 1, q, 3 * q + 1, lat, dlat, f2);
    SlotSumStep(vs, 2, q, 3 * q + 2, r, dr, f3);
    lon', dlon' := lon + f1.value, dlon + f1.derivative;
    lat', dlat' := lat + f2.value, dlat + f2.derivative;
    r', dr' := r + f3.value, dr + f3.derivative;
  }

  /** The scaled series of the three tables of group `q`. */
  method CalcGroup(tables: seq<seq<Record>>, q: nat, t: real, trig: Trig) returns (f1: Dual, f2: Dual, f3: Dual)
    requires StoreShaped(tables) && q < 12
    ensures f1 == FileValues(tables, t, trig)[3 * q]
    ensures f2 == FileValues(tables, t, trig)[3 * q + 1]
    ensures f3 == FileValues(tables, t, trig)[3 * q + 2]
  {
    f1 := CalcTable(tables, 3 * q, t, trig);
    f2 := CalcTable(tables, 3 * q + 1, t, trig);
    f3 := CalcTable(tables, 3 * q + 2, t, trig);
  }

  /** The dispatcher on a table of a complete store, which always answers. */
  method CalcTable(tables: seq<seq<Record>>, i: nat, t: real, trig: Trig) returns (f: Dual)
    requires StoreShaped(tables) && i < TABLE_COUNT
    ensures f == FileValues(tables, t, trig)[i]
  {
    FileValueAt(tables, t, trig, TABLE_COUNT, i);
    var res := CalcFile(tables, i, t, trig);
    f := res.value;
  }

  /** The position in the evaluator's expressions, from the three slot sums. */
  lemma AssembleInDegrees(vs: seq<Dual>, t: real, trig: Trig, lon: real, dlon: real, lat: real, dlat: real,
                          r: real, dr: real, W1: Dual)
    requires |vs| == TABLE_COUNT && W1 == MeanLongitude(t)
    requires Dual(lon, dlon) == SlotSum(vs, 0, 12)
    requires Dual(lat, dlat) == SlotSum(vs, 1, 12)
    requires Dual(r, dr) == SlotSum(vs, 2, 12)
    ensures Assemble(vs, t, trig) ==
            Spherical(Dual(Deg2Rad((lon + W1.value) / 3600.0, trig), Deg2Rad((dlon + W1.derivative) / 3600.0, trig)),
                      Dual(Deg2Rad(lat / 3600.0, trig), Deg2Rad(dlat / 3600.0, trig)),
                      Dual(r, dr))
  {
  }

  // ---------------------------------------------------------------------
  // Cartesian state

  /** Position in the units of the distance series and velocity per second. */
  datatype State = State(x: real, y: real, z: real, vx: real, vy: real, vz: real)

  /** The seconds of a Julian century. */
  const SECONDS_PER_CENTURY: real := 36525.0 * 86400.0

  /** The Cartesian state in the evaluator's expressions.  Each coordinate is
      a product of the distance and the sines and cosines of the angles, and
      its velocity is the rate of that product by the product and chain rules,
      per second instead of per Julian century. */
  function ToCartesian(m: Spherical, trig: Trig): (s: State)
    ensures var x := Mul(Mul(m.r, Cos(m.lon, trig)), Cos(m.lat, trig));
            var y := Mul(Mul(m.r, Sin(m.lon, trig)), Cos(m.lat, trig));
            var z := Mul(m.r, Sin(m.lat, trig));
            s.x == x.value && s.y == y.value && s.z == z.value &&
            s.vx == x.derivative / SECONDS_PER_CENTURY &&
            s.vy == y.derivative / SECONDS_PER_CENTURY &&
            s.vz == z.derivative / SECONDS_PER_CENTURY
  {
    var sinLon, sinLat := trig.sin(m.lon.value), trig.sin(m.lat.value);
    var cosLon, cosLat := trig.cos(m.lon.value), trig.cos(m.lat.value);
    var r, dr, dlon, dlat := m.r.value, m.r.derivative, m.lon.derivative, m.lat.derivative;
    RateOfX(r, dr, sinLon, cosLon, dlon, sinLat, cosLat, dlat);
    RateOfY(r, dr, sinLon, cosLon, dlon, sinLat, cosLat, dlat);
    RateOfZ(r, dr, sinLat, cosLat, dlat);
    State(r * cosLon * cosLat,
          r * sinLon * cosLat,
          r * sinLat,
          (dr * cosLon * cosLat - r * sinLon * cosLat * dlon - r * cosLon * sinLat * dlat) / 36525.0 / 86400.0,
          (dr * sinLon * cosLat + r * cosLon * cosLat * dlon - r * sinLon * sinLat * dlat) / 36525.0 / 86400.0,
          (dr * sinLat + r * cosLat * dlat) / 36525.0 / 86400.0)
  }

  /** `x = r cos(lon) cos(lat)` and the evaluator's `vx`. */
  lemma RateOfX(r: real, dr: real, sinLon: real, cosLon: real, dlon: real, sinLat: real, cosLat: real, dlat: real)
    ensures Mul(Mul(Dual(r, dr), Dual(cosLon, -sinLon * dlon)), Dual(cosLat, -sinLat * dlat)).derivative / SECONDS_PER_CENTURY
            == (dr * cosLon * cosLat - r * sinLon * cosLat * dlon - r * cosLon * sinLat * dlat) / 36525.0 / 86400.0
  {
    ProductOfThree(r, dr, cosLon, -sinLon * dlon, cosLat, -sinLat * dlat);
    PerSecond(dr * cosLon * cosLat - r * sinLon * cosLat * dlon - r * cosLon * sinLat * dlat);
  }

  /** `y = r sin(lon) cos(lat)` and the evaluator's `vy`. */
  lemma RateOfY(r: real, dr: real, sinLon: real, cosLon: real, dlon: real, sinLat: real, cosLat: real, dlat: real)
    ensures Mul(Mul(Dual(r, dr), Dual(sinLon, cosLon * dlon)), Dual(cosLat, -sinLat * dlat)).derivative / SECONDS_PER_CENTURY
            == (dr * sinLon * cosLat + r * cosLon * cosLat * dlon - r * sinLon * sinLat * dlat) / 36525.0 / 86400.0
  {
    ProductOfThree(r, dr, sinLon, cosLon * dlon, cosLat, -sinLat * dlat);
    PerSecond(dr * sinLon * cosLat + r * cosLon * cosLat * dlon - r * sinLon * sinLat * dlat);
  }

  /** `z = r sin(lat)` and the evaluator's `vz`. */
  lemma RateOfZ(r: real, dr: real, sinLat: real, cosLat: real, dlat: real)
    ensures Mul(Dual(r, dr), Dual(sinLat, cosLat * dlat)).derivative / SECONDS_PER_CENTURY
            == (dr * sinLat + r * cosLat * dlat) / 36525.0 / 86400.0
  {
    PerSecond(dr * sinLat + r * cosLat * dlat);
  }

  /** The rate of `a * b * c`. */
  lemma ProductOfThree(a: real, da: real, b: real, db: real, c: real, dc: real)
    ensures Mul(Mul(Dual(a, da), Dual(b, db)), Dual(c, dc)).derivative == da * b * c + a * db * c + a * b * dc
  {
  }

  lemma PerSecond(x: real)
    ensures x / 36525.0 / 86400.0 == x / SECONDS_PER_CENTURY
  {
  }
}
