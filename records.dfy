/**
 * What a flush works on, record by record: the decoded values, the timestamp
 * of a record, and `createJSON`'s conversion of a record into the map handed
 * to the JSON encoder.
 */
module Records {
  import opened Wrappers

  newtype byte = x: int | 0 <= x < 0x100
  newtype uint64 = x: int | 0 <= x < 0x1_0000_0000_0000_0000

  /** A decoded record value; byte slices are what `createJSON` rewrites. */
  datatype Value =
    | Str(text: string)
    | Bytes(data: seq<byte>)
    | Int(n: int)
    | Bool(flag: bool)
    | Nil
    | Array(items: seq<Value>)

  /** A record as decoded by the host: string keys to values. */
  type Record = map<string, Value>

  /** An instant, represented by what `aws.TimeUnixMilli` makes of it: milliseconds since the Unix epoch. */
  datatype Time = Time(unixMilli: int)

  /** The shapes a record timestamp arrives in. */
  datatype Timestamp =
    | FlbTime(time: Time)      // output.FLBTime
    | Unix(secs: uint64)       // a raw uint64 count of seconds
    | Unknown                  // anything else

  /** One result of `GetRecord`: a status (0 while records remain), a timestamp and a record. */
  datatype Entry = Entry(status: int, ts: Timestamp, record: Record)

  /** Go's `int64(t)` for a `uint64` t: two's-complement wrap-around. */
  function Int64(t: uint64): (r: int)
    ensures t < 0x8000_0000_0000_0000 ==> r == t as int
    ensures t >= 0x8000_0000_0000_0000 ==> r == t as int - 0x1_0000_0000_0000_0000 && r < 0
  {
    if t < 0x8000_0000_0000_0000 then t as int else t as int - 0x1_0000_0000_0000_0000
  }

  /**
   * The time a record is sent with: an FLBTime's own time, `time.Unix(int64(t), 0)`
   * for a count of seconds, and the wall clock `now` for anything else.
   */
  function TimestampOf(ts: Timestamp, now: Time): (t: Time)
    ensures ts.FlbTime? ==> t == ts.time
    ensures ts.Unix? && ts.secs < 0x8000_0000_0000_0000 ==> t.unixMilli == ts.secs as int * 1000
    ensures ts.Unix? ==> t.unixMilli == Int64(ts.secs) * 1000
    ensures ts.Unix? ==> t.unixMilli % 1000 == 0
    ensures ts.Unknown? ==> t == now
  {
    match ts
    case FlbTime(time) => time
    case Unix(secs) => Time(Int64(secs) * 1000)
    case Unknown => now
  }

  /** Go's `string(b)` for a byte slice: the same bytes, read as a string. */
  function BytesToString(b: seq<byte>): (s: string)
    ensures |s| == |b|
    ensures forall i :: 0 <= i < |b| ==> s[i] as int == b[i] as int
  {
    seq(|b|, i requires 0 <= i < |b| => b[i] as char)
  }

  /** The value `createJSON` stores for `v`: a byte slice becomes the string of its bytes, anything else is kept. */
  function ConvertValue(v: Value): (r: Value)
    ensures !r.Bytes?
    ensures !v.Bytes? ==> r == v
    ensures v.Bytes? ==> (r.Str? && |r.text| == |v.data|
      && forall i :: 0 <= i < |v.data| ==> r.text[i] as int == v.data[i] as int)
  {
    match v
    case Bytes(data) => Str(BytesToString(data))
    case _ => v
  }

  /** The map `createJSON` builds from a record, before encoding it. */
  function ConvertRecord(record: Record): (m: map<string, Value>)
    ensures m.Keys == record.Keys
    ensures forall k :: k in m ==> !m[k].Bytes?
    ensures forall k :: k in record && !record[k].Bytes? ==> m[k] == record[k]
    ensures forall k :: k in record && record[k].Bytes? ==> m[k] == Str(BytesToString(record[k].data))
  {
    map k | k in record :: ConvertValue(record[k])
  }

  /** Converting twice is converting once. */
  lemma ConvertRecordIdempotent(record: Record)
    ensures ConvertRecord(ConvertRecord(record)) == ConvertRecord(record)
  {
  }

  /**
   * `createJSON`: fills a fresh map key by key with the converted values, then
   * encodes it with `marshal` (the JSON encoder); on an encoding error the line
   * is "{}" and `failed` is set.
   */
  method CreateJSON(record: Record, marshal: map<string, Value> -> Option<string>)
    returns (line: string, failed: bool)
    ensures failed <==> marshal(ConvertRecord(record)).None?
    ensures failed ==> line == "{}"
    ensures !failed ==> Some(line) == marshal(ConvertRecord(record))
  {
    var m: map<string, Value> := map[];
    var pending := record.Keys;
    while pending != {}
      invariant pending <= record.Keys
      invariant m.Keys == record.Keys - pending
      invariant forall k :: k in m ==> m[k] == ConvertValue(record[k])
      decreases pending
    {
      var k :| k in pending;
      if record[k].Bytes? {
        // a byte slice is stored as a string, so the encoder does not write it as base64
        m := m[k := Str(BytesToString(record[k].data))];
      } else {
        m := m[k := record[k]];
      }
      pending := pending - {k};
    }
    assert m == ConvertRecord(record);
    match marshal(m)
    case None =>
      line, failed := "{}", true;
    case Some(js) =>
      line, failed := js, false;
  }
}
