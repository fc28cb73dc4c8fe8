/**
 * The detector/classifier stage: for one stored image it reads the image's
 * violation metadata, classifies the recognised text as a California plate or
 * not, and routes one message detail either to the downward queue (California)
 * or to the event bus (everything else).
 *
 * The object store is a map from (bucket, key) to metadata, the text detector's
 * answer is an input list of detections, and each outbound call has a fault input.
 */
module PlateReader {
  import opened Outcomes
  import opened Text
  import opened Cloud
  import opened Messages

  const EventBusName := "nonCaliPlate"
  const DownwardGroupId := "defaultGroup"
  const EventSource := "custom.imageProcessing"
  const EventDetailType := "Image Processed"

  /** One piece of recognised text. The confidence is carried but never consulted. */
  datatype Detection = Detection(detectedText: string, confidence: real)

  datatype LicensePlateInfo = LicensePlateInfo(plateNumber: string, isCalifornia: bool)

  // ---------------------------------------------------------------------------
  // Classification

  /** Upper-cases the text and removes all whitespace. */
  function Normalize(s: string): (r: string)
    ensures |r| <= |s|
    ensures forall i :: 0 <= i < |r| ==> !IsWhitespace(r[i]) && !IsLower(r[i])
  {
    if s == [] then []
    else (if IsWhitespace(s[0]) then [] else [ToUpper(s[0])]) + Normalize(s[1..])
  }

  /** Text that is already upper case and free of whitespace is left as it is. */
  lemma {:induction false} NormalizeKeepsNormalText(s: string)
    requires forall i :: 0 <= i < |s| ==> !IsWhitespace(s[i]) && !IsLower(s[i])
    ensures Normalize(s) == s
  {
    if s != [] {
      NormalizeKeepsNormalText(s[1..]);
      assert s == [s[0]] + s[1..];
    }
  }

  /** Normalising works piece by piece: whitespace is dropped and letters are raised wherever they occur. */
  lemma {:induction false} NormalizeConcat(a: string, b: string)
    ensures Normalize(a + b) == Normalize(a) + Normalize(b)
  {
    if a == [] {
      assert a + b == b;
    } else {
      var head := if IsWhitespace(a[0]) then [] else [ToUpper(a[0])];
      calc {
        Normalize(a + b);
      == { assert (a + b)[0] == a[0] && (a + b)[1..] == a[1..] + b; }
        head + Normalize(a[1..] + b);
      == { NormalizeConcat(a[1..], b); }
        head + (Normalize(a[1..]) + Normalize(b));
      ==
        (head + Normalize(a[1..])) + Normalize(b);
      }
    }
  }

  /** A whitespace character contributes nothing, a letter contributes its capital. */
  lemma NormalizeOneChar(c: char)
    ensures IsWhitespace(c) ==> Normalize([c]) == []
    ensures IsLower(c) ==> Normalize([c]) == [ToUpper(c)]
  {
    assert [c][1..] == [];
  }

  /** Normalising twice is normalising once. */
  lemma NormalizeIdempotent(s: string)
    ensures Normalize(Normalize(s)) == Normalize(s)
  {
    NormalizeKeepsNormalText(Normalize(s));
  }

  /** The California grammar `^[0-9][A-Z]{3}[0-9]{3}$`. */
  predicate IsCaliforniaPlate(s: string)
    ensures IsCaliforniaPlate(s) ==> |s| == 7 && forall i :: 0 <= i < |s| ==> !IsWhitespace(s[i]) && !IsLower(s[i])
  {
    && |s| == 7
    && IsDigit(s[0]) && IsUpper(s[1]) && IsUpper(s[2]) && IsUpper(s[3])
    && IsDigit(s[4]) && IsDigit(s[5]) && IsDigit(s[6])
  }

  function NormalizedText(d: Detection): string {
    Normalize(d.detectedText)
  }

  predicate Matches(d: Detection) {
    IsCaliforniaPlate(NormalizedText(d))
  }

  predicate IsFirstMatch(ds: seq<Detection>, i: int) {
    0 <= i < |ds| && Matches(ds[i]) && forall j :: 0 <= j < i ==> !Matches(ds[j])
  }

  /** The classification the scan computes: the first matching detection wins. */
  function Classify(ds: seq<Detection>): (r: LicensePlateInfo)
    ensures r.isCalifornia <==> r.plateNumber != ""
    ensures r.isCalifornia ==> IsCaliforniaPlate(r.plateNumber)
  {
    if ds == [] then LicensePlateInfo("", false)
    else if Matches(ds[0]) then LicensePlateInfo(NormalizedText(ds[0]), true)
    else Classify(ds[1..])
  }

  /** The first matching detection, in input order, gives the plate; later ones are ignored. */
  lemma {:induction false} ClassifyAcceptsFirstMatch(ds: seq<Detection>, i: int)
    requires IsFirstMatch(ds, i)
    ensures Classify(ds) == LicensePlateInfo(NormalizedText(ds[i]), true)
  {
    if i > 0 {
      assert !Matches(ds[0]);
      assert IsFirstMatch(ds[1..], i - 1);
      ClassifyAcceptsFirstMatch(ds[1..], i - 1);
    }
  }

  /** An accepted plate is the normalised text of the first matching detection. */
  lemma {:induction false} ClassifiedPlateIsFirstMatch(ds: seq<Detection>)
    requires Classify(ds).isCalifornia
    ensures exists i :: IsFirstMatch(ds, i) && NormalizedText(ds[i]) == Classify(ds).plateNumber
  {
    if Matches(ds[0]) {
      assert IsFirstMatch(ds, 0);
    } else {
      ClassifiedPlateIsFirstMatch(ds[1..]);
      var i :| IsFirstMatch(ds[1..], i) && NormalizedText(ds[1..][i]) == Classify(ds[1..]).plateNumber;
      assert IsFirstMatch(ds, i + 1);
    }
  }

  /** A plate is accepted exactly when some detection matches. */
  lemma {:induction false} ClassifyAcceptsIffSomeMatch(ds: seq<Detection>)
    ensures Classify(ds).isCalifornia <==> exists i :: 0 <= i < |ds| && Matches(ds[i])
  {
    if ds != [] && !Matches(ds[0]) {
      ClassifyAcceptsIffSomeMatch(ds[1..]);
      if exists i :: 0 <= i < |ds| && Matches(ds[i]) {
        var i :| 0 <= i < |ds| && Matches(ds[i]);
        assert Matches(ds[1..][i - 1]);
      }
    }
  }

  /** Without any matching detection the result is the empty, out-of-state classification. */
  lemma ClassifyWithoutMatch(ds: seq<Detection>)
    requires forall i :: 0 <= i < |ds| ==> !Matches(ds[i])
    ensures Classify(ds) == LicensePlateInfo("", false)
  {
    ClassifyAcceptsIffSomeMatch(ds);
  }

  /**
   * Only the normalised texts matter: detections that differ in confidence, in
   * whitespace or in letter case classify alike.
   */
  lemma {:induction false} ClassifyDependsOnlyOnNormalizedText(ds: seq<Detection>, es: seq<Detection>)
    requires |ds| == |es|
    requires forall i :: 0 <= i < |ds| ==> NormalizedText(ds[i]) == NormalizedText(es[i])
    ensures Classify(ds) == Classify(es)
  {
    if ds != [] {
      ClassifyDependsOnlyOnNormalizedText(ds[1..], es[1..]);
    }
  }

  /** Confidence scores never influence the classification. */
  lemma ClassifyIgnoresConfidence(ds: seq<Detection>, es: seq<Detection>)
    requires |ds| == |es|
    requires forall i :: 0 <= i < |ds| ==> ds[i].detectedText == es[i].detectedText
    ensures Classify(ds) == Classify(es)
  {
    ClassifyDependsOnlyOnNormalizedText(ds, es);
  }

  /** extractLicensePlateInfo: scans the detections in order and stops at the first match. */
  method ExtractLicensePlateInfo(textDetections: seq<Detection>) returns (info: LicensePlateInfo)
    ensures info == Classify(textDetections)
  {
    var plateNumber := "";
    var isCalifornia := false;
    for i := 0 to |textDetections|
      invariant !isCalifornia && plateNumber == ""
      invariant Classify(textDetections) == Classify(textDetections[i..])
    {
      var detectedText := Normalize(textDetections[i].detectedText);
      assert textDetections[i..][0] == textDetections[i];
      if IsCaliforniaPlate(detectedText) {
        plateNumber := detectedText;
        isCalifornia := true;
        break;
      }
      assert textDetections[i..][1..] == textDetections[i + 1..];
    }
    info := LicensePlateInfo(plateNumber, isCalifornia);
  }

  // ---------------------------------------------------------------------------
  // Outbound payloads

  /** The deduplication id: the plate, a dash and the send time in milliseconds, each of
      which can be read back from it. */
  function GenerateDeduplicationId(messageBody: MessageDetail, now: nat): (id: string)
    ensures var plate := messageBody.licensePlate;
      && |id| > |plate| + 1 && id[..|plate|] == plate && id[|plate|] == '-'
      && AllDigits(id[|plate| + 1..]) && DigitsValue(id[|plate| + 1..]) == now
  {
    DashedNumberParts(messageBody.licensePlate, now);
    messageBody.licensePlate + "-" + NatToString(now)
  }

  /** Because the id depends on the clock, the same detail sent at two different times
      gets two different ids, so the queue cannot recognise a retried invocation. */
  lemma DeduplicationIdDependsOnTime(messageBody: MessageDetail, now: nat, later: nat)
    requires now != later
    ensures GenerateDeduplicationId(messageBody, now) != GenerateDeduplicationId(messageBody, later)
  {
  }

  /** sendMessageToSQSQueue: one message in group `defaultGroup`; a failed send is
      only logged, so the caller completes either way. */
  method SendMessageToSqsQueue(queue: Queue<MessageDetail>, messageBody: MessageDetail, now: nat, fault: bool)
    requires queue.Valid()
    modifies queue
    ensures queue.Valid()
    ensures queue.messages == old(queue.messages) +
      (if fault then [] else [Message(old(queue.nextHandle), DownwardGroupId, GenerateDeduplicationId(messageBody, now), messageBody)])
    ensures queue.nextHandle == old(queue.nextHandle) + (if fault then 0 else 1)
  {
    var sent := queue.Send(messageBody, DownwardGroupId, GenerateDeduplicationId(messageBody, now), fault);
  }

  /** sendEventToEventBridge: one entry with the fixed source and detail type on the
      named bus; a failed put is only logged. */
  method SendEventToEventBridge(bus: EventBus<MessageDetail>, busName: string, detail: MessageDetail, fault: bool)
    modifies bus
    ensures bus.entries == old(bus.entries) +
      (if fault then [] else [BusEntry(busName, EventSource, EventDetailType, detail)])
  {
    var sent := bus.PutEvents(BusEntry(busName, EventSource, EventDetailType, detail), fault);
  }

  // ---------------------------------------------------------------------------
  // The handler

  /** The part of an object-created notification the handler reads. */
  datatype S3Record = S3Record(bucketName: string, objectKey: string)

  /** The user metadata stored with an image. */
  datatype ObjectMetadata = ObjectMetadata(violation: string, time: string, location: string)

  datatype HandlerError = NoRecords | GetObjectFailed | DetectTextFailed

  /** Where the handler sends its detail. */
  datatype Route = ToDownwardQueue(detail: MessageDetail) | ToEventBus(detail: MessageDetail)

  /** Object keys arrive with spaces encoded as `+`. */
  function DecodeKey(rawKey: string): (key: string)
    ensures |key| == |rawKey|
    ensures forall i :: 0 <= i < |key| ==> key[i] == if rawKey[i] == '+' then ' ' else rawKey[i]
  {
    seq(|rawKey|, i requires 0 <= i < |rawKey| => if rawKey[i] == '+' then ' ' else rawKey[i])
  }

  /**
   * What one invocation decides, before any send: an error, or the route and detail.
   * No records, a missing object and a failed detection are the only errors, in that
   * order. The routed detail carries the image key, the classified plate and the image's
   * metadata unchanged, and goes to the queue exactly when the classification is
   * Californian; only a California-grammar plate reaches the queue, and the bus gets an
   * empty plate.
   */
  function PlanRoute(records: seq<S3Record>, store: map<(string, string), ObjectMetadata>,
                     textDetections: seq<Detection>, detectFault: bool): (plan: Result<Route, HandlerError>)
    ensures |records| == 0 <==> plan == Failure(NoRecords)
    ensures plan == Failure(GetObjectFailed) <==>
              |records| > 0 && (records[0].bucketName, DecodeKey(records[0].objectKey)) !in store
    ensures plan.Success? <==>
              |records| > 0 && (records[0].bucketName, DecodeKey(records[0].objectKey)) in store && !detectFault
    ensures plan.Success? ==>
      var key := DecodeKey(records[0].objectKey);
      var metadata := store[(records[0].bucketName, key)];
      var info := Classify(textDetections);
      && plan.value.detail == MessageDetail(key, info.plateNumber, metadata.violation, metadata.time, metadata.location)
      && (plan.value.ToDownwardQueue? <==> info.isCalifornia)
      && (plan.value.ToDownwardQueue? ==> IsCaliforniaPlate(plan.value.detail.licensePlate))
      && (plan.value.ToEventBus? ==> plan.value.detail.licensePlate == "")
  {
    if |records| == 0 then Failure(NoRecords)
    else
      var bucket := records[0].bucketName;
      var key := DecodeKey(records[0].objectKey);
      if (bucket, key) !in store then Failure(GetObjectFailed)
      else if detectFault then Failure(DetectTextFailed)
      else
        var metadata := store[(bucket, key)];
        var info := Classify(textDetections);
        var detail := MessageDetail(key, info.plateNumber, metadata.violation, metadata.time, metadata.location);
        if info.isCalifornia then Success(ToDownwardQueue(detail)) else Success(ToEventBus(detail))
  }

  /**
   * handler: processes `Records[0]` only. A missing object or a failed detection
   * throws before any send. Otherwise exactly one send is attempted, to the queue for a
   * California plate and to the bus for anything else; the other sink is untouched.
   * A failed send (`sendFault`) is swallowed, so the invocation still ends normally.
   */
  method Handler(records: seq<S3Record>, store: map<(string, string), ObjectMetadata>,
                 textDetections: seq<Detection>, detectFault: bool, now: nat, sendFault: bool,
                 downward: Queue<MessageDetail>, bus: EventBus<MessageDetail>)
    returns (result: Outcome<HandlerError>)
    requires downward.Valid()
    modifies downward, bus
    ensures downward.Valid()
    ensures match PlanRoute(records, store, textDetections, detectFault)
      case Failure(e) =>
        result == Fail(e) && unchanged(downward) && unchanged(bus)
      case Success(ToDownwardQueue(detail)) =>
        && result == Pass && unchanged(bus)
        && downward.messages == old(downward.messages) +
             (if sendFault then []
              else [Message(old(downward.nextHandle), DownwardGroupId, GenerateDeduplicationId(detail, now), detail)])
        && downward.nextHandle == old(downward.nextHandle) + (if sendFault then 0 else 1)
      case Success(ToEventBus(detail)) =>
        && result == Pass && unchanged(downward)
        && bus.entries == old(bus.entries) +
             (if sendFault then [] else [BusEntry(EventBusName, EventSource, EventDetailType, detail)])
  {
    if |records| == 0 {
      return Fail(NoRecords);
    }
    var bucket := records[0].bucketName;
    var key := DecodeKey(records[0].objectKey);
    if (bucket, key) !in store {
      return Fail(GetObjectFailed);
    }
    var metadata := store[(bucket, key)];
    if detectFault {
      return Fail(DetectTextFailed);
    }
    var licensePlateInfo := ExtractLicensePlateInfo(textDetections);
    var messageDetail := MessageDetail(key, licensePlateInfo.plateNumber, metadata.violation, metadata.time, metadata.location);
    if licensePlateInfo.isCalifornia {
      SendMessageToSqsQueue(downward, messageDetail, now, sendFault);
    } else {
      SendEventToEventBridge(bus, EventBusName, messageDetail, sendFault);
    }
    result := Pass;
  }

  // ---------------------------------------------------------------------------
  // Worked examples

  /** A plate followed by other text: the plate is accepted as written. */
  lemma PlateBeforeOtherText()
    ensures Classify([Detection("3ABC123", 99.0), Detection("RANDOMTEXT", 80.0)])
         == LicensePlateInfo("3ABC123", true)
  {
    var ds := [Detection("3ABC123", 99.0), Detection("RANDOMTEXT", 80.0)];
    NormalizeKeepsNormalText("3ABC123");
    ClassifyAcceptsFirstMatch(ds, 0);
  }

  /** "9XYZ987" is a digit, three letters and three digits, so the grammar accepts it. */
  lemma NineXyzIsCalifornian()
    ensures Classify([Detection("9XYZ987", 90.0)]) == LicensePlateInfo("9XYZ987", true)
  {
    NormalizeKeepsNormalText("9XYZ987");
    ClassifyAcceptsFirstMatch([Detection("9XYZ987", 90.0)], 0);
  }

  /** The second of two plates is ignored, even with the higher confidence. */
  lemma FirstPlateBeatsMoreConfidentOne()
    ensures Classify([Detection("1AAA111", 10.0), Detection("2BBB222", 99.0)])
         == LicensePlateInfo("1AAA111", true)
  {
    NormalizeKeepsNormalText("1AAA111");
    ClassifyAcceptsFirstMatch([Detection("1AAA111", 10.0), Detection("2BBB222", 99.0)], 0);
  }
}
