/** The calibration store and the interactive calibration procedure.

    Each of the two light sensors has its own record `{black, white}`, kept in
    its own file (`light.json` for the primary sensor, `secondary_light.json`
    for the secondary one). Here the files are an abstract map from sensor to
    record; a missing key is a sensor that was never calibrated.

    Calibration of one sensor is two steps. The black step builds a fresh
    in-memory record `{black: sample, white: 100}` and writes it out; the white
    step overwrites the `white` field of that same in-memory record and writes
    the whole record out again. */
module Calibration {
  import opened Reflectance

  /** The two light sensors: `Primary` is the one read by `rgb_reflection`,
      `Secondary` the one read by `secondary_rgb_reflection`. */
  datatype SensorId = Primary | Secondary

  datatype Record = Record(black: real, white: real)

  datatype Option<T> = None | Some(value: T)

  /** The persisted records, one per sensor file. */
  type Store = map<SensorId, Record>

  /** The placeholder white value written by the black step. */
  const PlaceholderWhite: real := 100.0

  /** The record the black step builds. */
  function BlackRecord(sample: real): Record {
    Record(sample, PlaceholderWhite)
  }

  /** The record after the white step's in-place field update. */
  function WithWhite(rec: Record, sample: real): Record {
    rec.(white := sample)
  }

  /** Writing a sensor's file replaces its whole record. */
  function Save(store: Store, sensor: SensorId, rec: Record): Store {
    store[sensor := rec]
  }

  /** Reading a sensor's file: nothing when the sensor was never calibrated. */
  function Load(store: Store, sensor: SensorId): Option<Record> {
    if sensor in store then Some(store[sensor]) else None
  }

  /** The store after the whole procedure: black then white on the primary
      sensor, then black then white on the secondary sensor. */
  function Calibrated(store: Store, rightBlack: Rgb, rightWhite: Rgb, leftBlack: Rgb, leftWhite: Rgb): Store
  {
    var s1 := Save(store, Primary, BlackRecord(Sample(rightBlack)));
    var s2 := Save(s1, Primary, WithWhite(BlackRecord(Sample(rightBlack)), Sample(rightWhite)));
    var s3 := Save(s2, Secondary, BlackRecord(Sample(leftBlack)));
    Save(s3, Secondary, WithWhite(BlackRecord(Sample(leftBlack)), Sample(leftWhite)))
  }

  /** The black step followed by the white step yields exactly
      `{black: black sample, white: white sample}`: the placeholder is gone. */
  lemma BlackThenWhite(store: Store, sensor: SensorId, black: real, white: real)
    ensures Load(Save(Save(store, sensor, BlackRecord(black)), sensor,
                      WithWhite(BlackRecord(black), white)), sensor)
            == Some(Record(black, white))
  {
  }

  /** Each write replaces the whole record, so of two writes to one sensor
      only the second is visible. */
  lemma LastWriteWins(store: Store, sensor: SensorId, first: Record, second: Record)
    ensures Save(Save(store, sensor, first), sensor, second) == Save(store, sensor, second)
  {
  }

  /** The two sensors' files are independent: writing one leaves the other's
      record as it was, and writes to different sensors commute. */
  lemma SensorsIndependent(store: Store, a: SensorId, b: SensorId, ra: Record, rb: Record)
    requires a != b
    ensures Load(Save(store, a, ra), b) == Load(store, b)
    ensures Save(Save(store, a, ra), b, rb) == Save(Save(store, b, rb), a, ra)
  {
  }

  /** After the full procedure each sensor holds its own black and white
      samples, whatever the store held before. */
  lemma CalibratedRecords(store: Store, rightBlack: Rgb, rightWhite: Rgb, leftBlack: Rgb, leftWhite: Rgb)
    ensures Load(Calibrated(store, rightBlack, rightWhite, leftBlack, leftWhite), Primary)
            == Some(Record(Sample(rightBlack), Sample(rightWhite)))
    ensures Load(Calibrated(store, rightBlack, rightWhite, leftBlack, leftWhite), Secondary)
            == Some(Record(Sample(leftBlack), Sample(leftWhite)))
  {
  }

  /** The calibration procedure's state: the in-memory records being built
      (`value_dict`, `value_dict2`) and the files they are written to. */
  class Calibrator {
    var pending: map<SensorId, Record>
    var store: Store

    /** Every record being built has been written out as it stands: the file
        mirrors the in-memory record after each step. */
    ghost predicate Valid()
      reads this
    {
      forall sensor :: sensor in pending ==> sensor in store && store[sensor] == pending[sensor]
    }

    /** Start of a session: no record built yet, files as left by earlier runs. */
    constructor (saved: Store)
      ensures Valid()
      ensures pending == map[] && store == saved
    {
      pending := map[];
      store := saved;
    }

    /** The black step: a fresh record `{black: sample, white: 100}`, written
        over the sensor's file. */
    method BlackStep(sensor: SensorId, reading: Rgb)
      requires Valid()
      modifies this
      ensures Valid()
      ensures pending == old(pending)[sensor := BlackRecord(Sample(reading))]
      ensures store == Save(old(store), sensor, BlackRecord(Sample(reading)))
    {
      pending := pending[sensor := BlackRecord(Sample(reading))];
      store := Save(store, sensor, pending[sensor]);
    }

    /** The white step: the in-memory record of the black step gets its
        `white` field replaced, and the whole record is written out again.
        The step refers to that in-memory record, so the black step must have
        run first in this session. */
    method WhiteStep(sensor: SensorId, reading: Rgb)
      requires Valid()
      requires sensor in pending
      modifies this
      ensures Valid()
      ensures pending == old(pending)[sensor := WithWhite(old(pending)[sensor], Sample(reading))]
      ensures store == Save(old(store), sensor, WithWhite(old(pending)[sensor], Sample(reading)))
      ensures Load(store, sensor) == Some(Record(old(store)[sensor].black, Sample(reading)))
    {
      pending := pending[sensor := WithWhite(pending[sensor], Sample(reading))];
      store := Save(store, sensor, pending[sensor]);
    }
  }

  /** The whole procedure: primary sensor on black, on white, then the
      secondary sensor on black, on white. */
  method Calibrate(c: Calibrator, rightBlack: Rgb, rightWhite: Rgb, leftBlack: Rgb, leftWhite: Rgb)
    requires c.Valid()
    modifies c
    ensures c.Valid()
    ensures c.store == Calibrated(old(c.store), rightBlack, rightWhite, leftBlack, leftWhite)
    ensures c.pending == old(c.pending)[Primary := Record(Sample(rightBlack), Sample(rightWhite))]
                                       [Secondary := Record(Sample(leftBlack), Sample(leftWhite))]
  {
    c.BlackStep(Primary, rightBlack);
    c.WhiteStep(Primary, rightWhite);
    c.BlackStep(Secondary, leftBlack);
    c.WhiteStep(Secondary, leftWhite);
  }
}
