/**
 * The ingestion service of services/api/app.py: an in-memory buffer that
 * `POST /ingest` appends to and `GET /latest` reads the newest entry of.
 */
module IngestApi {

  /** One sensor reading as the request body carries it. */
  datatype SensorReading = SensorReading(
    timestamp: string,
    kilnTempC: real,
    millPowerKW: real,
    rawFeedRateTph: real,
    afRatePercent: real,
    clinkerFreeLimePercent: real,
    blaineSurfaceCm2g: real,
    co2EmissionKgpt: real)

  /** The acknowledgement of an ingest: a status and the buffer's new length. */
  datatype IngestAck = IngestAck(status: string, bufferLen: nat)

  const OkStatus := "ok"

  /** The reply of `/latest`: `Empty` is the `{'status': 'empty'}` answer, otherwise the newest reading itself. */
  datatype LatestReply = Empty | Latest(reading: SensorReading)

  /** The newest entry of a buffer, or `Empty` when nothing was ingested. */
  function Newest(readings: seq<SensorReading>): (reply: LatestReply)
    ensures reply.Empty? <==> |readings| == 0
    ensures reply.Latest? ==> reply.reading == readings[|readings| - 1]
    ensures reply.Latest? ==> reply.reading in readings
  {
    if |readings| == 0 then Empty else Latest(readings[|readings| - 1])
  }

  /** The process-wide buffer; readings are kept in arrival order. */
  class ReadingBuffer {
    var readings: seq<SensorReading>

    constructor ()
      ensures readings == []
    {
      readings := [];
    }

    /** `POST /ingest`: append the reading and report the new length. */
    method IngestReading(reading: SensorReading) returns (ack: IngestAck)
      modifies this
      ensures readings == old(readings) + [reading]
      ensures ack == IngestAck(OkStatus, |old(readings)| + 1)
      ensures ack.bufferLen == |readings|
    {
      readings := readings + [reading];
      ack := IngestAck(OkStatus, |readings|);
    }

    /** `GET /latest`: the last reading appended, or `Empty`. */
    method LatestReading() returns (reply: LatestReply)
      ensures reply == Newest(readings)
      ensures reply.Empty? <==> |readings| == 0
    {
      if |readings| == 0 {
        reply := Empty;
      } else {
        reply := Latest(readings[|readings| - 1]);
      }
    }
  }

  /**
   * A fresh buffer fed `rs` one request at a time: the j-th acknowledgement
   * reports j + 1 readings, and `/latest` then answers with the last one sent.
   */
  method ReplayIngests(rs: seq<SensorReading>) returns (acks: seq<IngestAck>, reply: LatestReply)
    ensures |acks| == |rs|
    ensures forall j :: 0 <= j < |acks| ==> acks[j] == IngestAck(OkStatus, j + 1)
    ensures reply == Newest(rs)
    ensures |rs| > 0 ==> reply == Latest(rs[|rs| - 1])
  {
    var buffer := new ReadingBuffer();
    acks := [];
    var i := 0;
    while i < |rs|
      invariant 0 <= i <= |rs|
      invariant buffer.readings == rs[..i]
      invariant |acks| == i
      invariant forall j :: 0 <= j < i ==> acks[j] == IngestAck(OkStatus, j + 1)
    {
      var ack := buffer.IngestReading(rs[i]);
      assert rs[..i + 1] == rs[..i] + [rs[i]];
      acks := acks + [ack];
      i := i + 1;
    }
    assert rs[..i] == rs;
    reply := buffer.LatestReading();
  }
}
