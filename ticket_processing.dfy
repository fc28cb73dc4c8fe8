/**
 * The notifier stage: for each record of a batch from the upward queue, in order,
 * it looks up the fine, formats the notice, publishes it to the topic and then
 * deletes the record. The first failing publish or delete ends the batch and its
 * error is rethrown; records before it stay published and deleted, the rest are
 * left alone.
 *
 * As written, an unknown violation type does not stop a record: the fine is
 * `undefined`, the notice says "Ticket amount: $undefined", and it is published and
 * deleted like any other.
 */
module TicketProcessing {
  import opened Outcomes
  import opened Text
  import opened Cloud
  import opened Messages

  /** The fine schedule, in dollars. */
  const Fines: map<string, nat> := map[
    "no_stop" := 300,
    "no_full_stop_on_right" := 75,
    "no_right_on_red" := 125
  ]

  /** `fines[message.violation]`: the fine for a known violation type, `None` (undefined) otherwise. */
  function FineFor(violation: string): (fine: Option<nat>)
    ensures fine.Some? <==> violation == "no_stop" || violation == "no_full_stop_on_right" || violation == "no_right_on_red"
    ensures violation == "no_stop" ==> fine == Some(300)
    ensures violation == "no_full_stop_on_right" ==> fine == Some(75)
    ensures violation == "no_right_on_red" ==> fine == Some(125)
  {
    if violation in Fines then Some(Fines[violation]) else None
  }

  /** How a template literal prints the fine: its digits, which read back as the fine,
      or `undefined`. */
  function FineText(fineAmount: Option<nat>): (t: string)
    ensures fineAmount.Some? ==> AllDigits(t) && DigitsValue(t) == fineAmount.value
    ensures fineAmount.None? ==> t == "undefined"
    ensures NoLineBreak(t)
  {
    match fineAmount
    case Some(n) =>
      DigitsValueOfNatToString(n);
      var t := NatToString(n);
      assert forall i :: 0 <= i < |t| ==> t[i] != '\n';
      t
    case None => "undefined"
  }

  /** The template's second line, written in pieces so that facts about its characters stay cheap to prove. */
  const PaymentRequestLine := "Your vehicle " + "was involved " + "in a traffic " + "violation. " +
                              "Please pay " + "the specified " + "ticket amount " + "by 30 days:"

  /** The template's own text holds no line break; only the filled-in fields can. */
  lemma PaymentRequestLineHasNoLineBreak()
    ensures NoLineBreak(PaymentRequestLine)
  {
    NoLineBreakConcat("Your vehicle " + "was involved " + "in a traffic " + "violation. ",
                      "Please pay " + "the specified " + "ticket amount " + "by 30 days:");
  }

  lemma LabelsHaveNoLineBreak()
    ensures NoLineBreak("Hello ") && NoLineBreak(",") && NoLineBreak("Vehicle: ") && NoLineBreak(" ")
    ensures NoLineBreak("License plate: ") && NoLineBreak("Date: ")
  {
  }

  lemma LongLabelsHaveNoLineBreak()
    ensures NoLineBreak("Violation address: ") && NoLineBreak("Violation type: ") && NoLineBreak("Ticket amount: $")
  {
  }

  function GreetingLine(details: VehicleDetails): (line: string)
    ensures NoLineBreak(line) <==> NoLineBreak(details.owner.name)
  {
    LabelsHaveNoLineBreak();
    NoLineBreakConcat("Hello ", details.owner.name);
    NoLineBreakConcat("Hello " + details.owner.name, ",");
    "Hello " + details.owner.name + ","
  }

  function VehicleLine(details: VehicleDetails): (line: string)
    ensures NoLineBreak(line) <==> NoLineBreak(details.color) && NoLineBreak(details.make) && NoLineBreak(details.model)
  {
    LabelsHaveNoLineBreak();
    NoLineBreakConcat("Vehicle: ", details.color);
    NoLineBreakConcat("Vehicle: " + details.color, " ");
    NoLineBreakConcat("Vehicle: " + details.color + " ", details.make);
    NoLineBreakConcat("Vehicle: " + details.color + " " + details.make, " ");
    NoLineBreakConcat("Vehicle: " + details.color + " " + details.make + " ", details.model);
    "Vehicle: " + details.color + " " + details.make + " " + details.model
  }

  /** A line of a label followed by a field. */
  function FieldLine(caption: string, value: string): (line: string)
    requires NoLineBreak(caption)
    ensures NoLineBreak(line) <==> NoLineBreak(value)
  {
    NoLineBreakConcat(caption, value);
    caption + value
  }

  function AmountLine(fineAmount: Option<nat>): (line: string)
    ensures NoLineBreak(line)
  {
    LongLabelsHaveNoLineBreak();
    FieldLine("Ticket amount: $", FineText(fineAmount))
  }

  /** The eight lines of the notice, top to bottom: greeting first, amount last, and
      free of line breaks exactly when the fields filled into them are. */
  function EmailLines(details: VehicleDetails, fineAmount: Option<nat>, violationTime: string): (lines: seq<string>)
    ensures |lines| == 8 && lines[0] == GreetingLine(details) && lines[7] == AmountLine(fineAmount)
    ensures NoLineBreaks(lines) <==>
      && NoLineBreak(details.owner.name) && NoLineBreak(details.color) && NoLineBreak(details.make)
      && NoLineBreak(details.model) && NoLineBreak(details.plate) && NoLineBreak(violationTime)
      && NoLineBreak(details.location) && NoLineBreak(details.violation)
  {
    PaymentRequestLineHasNoLineBreak();
    LabelsHaveNoLineBreak();
    LongLabelsHaveNoLineBreak();
    NoLineBreaksOfEight(GreetingLine(details), PaymentRequestLine, VehicleLine(details),
                        FieldLine("License plate: ", details.plate), FieldLine("Date: ", violationTime),
                        FieldLine("Violation address: ", details.location),
                        FieldLine("Violation type: ", details.violation), AmountLine(fineAmount));
    [ GreetingLine(details),
      PaymentRequestLine,
      VehicleLine(details),
      FieldLine("License plate: ", details.plate),
      FieldLine("Date: ", violationTime),
      FieldLine("Violation address: ", details.location),
      FieldLine("Violation type: ", details.violation),
      AmountLine(fineAmount) ]
  }

  /**
   * formatEmailBody: the lines joined with line breaks. The notice opens with the
   * greeting line, closes with the amount line, and, when no field holds a line break,
   * splits back into exactly the template's lines. `render` stands for converting the
   * violation time to a Los Angeles local-time string, which is not modelled.
   */
  function FormatEmailBody(details: VehicleDetails, fineAmount: Option<nat>, render: string -> string): (body: string)
    ensures StartsWith(body, GreetingLine(details) + "\n")
    ensures EndsWith(body, "\n" + AmountLine(fineAmount))
    ensures NoLineBreaks(EmailLines(details, fineAmount, render(details.time))) ==>
              Split(body) == EmailLines(details, fineAmount, render(details.time))
  {
    var lines := EmailLines(details, fineAmount, render(details.time));
    JoinStartsWithFirst(lines);
    JoinEndsWithLast(lines);
    if NoLineBreaks(lines) then SplitJoin(lines); Join(lines) else Join(lines)
  }

  /** A known violation's notice ends with its fine in dollars, e.g. `$300` for `no_stop`. */
  lemma KnownFineIsPrinted(details: VehicleDetails, render: string -> string)
    requires FineFor(details.violation).Some?
    ensures var n := FineFor(details.violation).value;
      && EndsWith(FormatEmailBody(details, FineFor(details.violation), render), "\n" + AmountLine(Some(n)))
      && AmountLine(Some(n)) == "Ticket amount: $" + NatToString(n)
      && DigitsValue(NatToString(n)) == n
  {
    DigitsValueOfNatToString(FineFor(details.violation).value);
  }

  lemma PrintsThreeHundred()
    ensures NatToString(300) == "300"
  {
    assert NatToString(3) == "3";
    assert NatToString(30) == "30";
  }

  /** The amount line of a no_stop notice, the notice's last line, reads "Ticket amount: $300". */
  lemma NoStopCosts300()
    ensures AmountLine(FineFor("no_stop")) == "Ticket amount: $300"
  {
    PrintsThreeHundred();
  }

  /** An unknown violation's notice ends with "Ticket amount: $undefined". */
  lemma UnknownFineIsUndefined(details: VehicleDetails, render: string -> string)
    requires details.violation !in Fines
    ensures EndsWith(FormatEmailBody(details, FineFor(details.violation), render), "\n" + AmountLine(None))
    ensures AmountLine(None) == "Ticket amount: $undefined"
  {
  }

  // ---------------------------------------------------------------------------
  // The record loop

  datatype TicketError = PublishFailed(index: nat) | DeleteFailed(index: nat)

  /** What a batch run leaves behind: the notices published and the handles deleted, in order. */
  datatype TicketRun = TicketRun(published: seq<string>, deleted: seq<Handle>, outcome: Outcome<TicketError>)

  function Notice(record: Message<VehicleDetails>, render: string -> string): string {
    FormatEmailBody(record.body, FineFor(record.body.violation), render)
  }

  /** The notice text of each record, for a given time rendering. */
  function Notices(render: string -> string): Message<VehicleDetails> -> string {
    record => Notice(record, render)
  }

  /**
   * The loop from record i on; `notice` gives the text published for a record.
   * Publish faults and delete faults are the indexes of the records whose publish
   * or delete call throws.
   */
  function RunFrom(records: seq<Message<VehicleDetails>>, notice: Message<VehicleDetails> -> string,
                   publishFaults: set<nat>, deleteFaults: set<nat>, i: nat): (run: TicketRun)
    requires i <= |records|
    decreases |records| - i
    ensures run.outcome.Fail? ==> i <= run.outcome.error.index < |records|
    ensures run.outcome.Fail? && run.outcome.error.PublishFailed? ==> run.outcome.error.index in publishFaults
    ensures run.outcome.Fail? && run.outcome.error.DeleteFailed? ==>
              run.outcome.error.index in deleteFaults && run.outcome.error.index !in publishFaults
  {
    if i == |records| then TicketRun([], [], Pass)
    else if i in publishFaults then TicketRun([], [], Fail(PublishFailed(i)))
    else if i in deleteFaults then TicketRun([notice(records[i])], [], Fail(DeleteFailed(i)))
    else
      var rest := RunFrom(records, notice, publishFaults, deleteFaults, i + 1);
      TicketRun([notice(records[i])] + rest.published, [records[i].receiptHandle] + rest.deleted, rest.outcome)
  }

  predicate NoFaultIn(publishFaults: set<nat>, deleteFaults: set<nat>, lo: nat, hi: nat) {
    forall k: nat :: lo <= k < hi ==> k !in publishFaults && k !in deleteFaults
  }

  /**
   * Publishing happens in record order and deleting follows it: the deleted handles are
   * those of the first records, the published notices are those of the same records plus
   * at most one more (whose delete then failed), and nothing later is touched.
   */
  lemma {:induction false} RunIsOrderedPrefix(records: seq<Message<VehicleDetails>>, notice: Message<VehicleDetails> -> string,
                                              publishFaults: set<nat>, deleteFaults: set<nat>, i: nat)
    requires i <= |records|
    decreases |records| - i
    ensures var run := RunFrom(records, notice, publishFaults, deleteFaults, i);
      && |run.deleted| <= |run.published| <= |run.deleted| + 1
      && i + |run.published| <= |records|
      && (forall k :: 0 <= k < |run.deleted| ==> run.deleted[k] == records[i + k].receiptHandle)
      && (forall k :: 0 <= k < |run.published| ==> run.published[k] == notice(records[i + k]))
      && (|run.published| == |run.deleted| + 1 <==> run.outcome.Fail? && run.outcome.error.DeleteFailed?)
  {
    if i < |records| && i !in publishFaults && i !in deleteFaults {
      RunIsOrderedPrefix(records, notice, publishFaults, deleteFaults, i + 1);
    }
  }

  /** The batch succeeds exactly when no publish or delete fails; then every record is published and deleted. */
  lemma {:induction false} RunPassesIffNoFault(records: seq<Message<VehicleDetails>>, notice: Message<VehicleDetails> -> string,
                                               publishFaults: set<nat>, deleteFaults: set<nat>, i: nat)
    requires i <= |records|
    decreases |records| - i
    ensures var run := RunFrom(records, notice, publishFaults, deleteFaults, i);
      && (run.outcome == Pass <==> NoFaultIn(publishFaults, deleteFaults, i, |records|))
      && (run.outcome == Pass ==> |run.published| == |run.deleted| == |records| - i)
  {
    if i < |records| && i !in publishFaults && i !in deleteFaults {
      RunPassesIffNoFault(records, notice, publishFaults, deleteFaults, i + 1);
      assert NoFaultIn(publishFaults, deleteFaults, i, |records|) <==>
             NoFaultIn(publishFaults, deleteFaults, i + 1, |records|);
    }
  }

  /**
   * The first failure ends the batch with its own error: a failed publish at k leaves
   * records i..k-1 published and deleted and k neither; a failed delete at k leaves k
   * published but not deleted.
   */
  lemma {:induction false} RunStopsAtFirstFault(records: seq<Message<VehicleDetails>>, notice: Message<VehicleDetails> -> string,
                                                publishFaults: set<nat>, deleteFaults: set<nat>, i: nat, k: nat)
    requires i <= k < |records|
    requires NoFaultIn(publishFaults, deleteFaults, i, k)
    requires k in publishFaults || k in deleteFaults
    decreases k - i
    ensures var run := RunFrom(records, notice, publishFaults, deleteFaults, i);
      && run.outcome == (if k in publishFaults then Fail(PublishFailed(k)) else Fail(DeleteFailed(k)))
      && |run.deleted| == k - i
      && |run.published| == (if k in publishFaults then k - i else k - i + 1)
  {
    if i < k {
      assert i !in publishFaults && i !in deleteFaults;
      RunStopsAtFirstFault(records, notice, publishFaults, deleteFaults, i + 1, k);
    }
  }

  /** The loop's invariant: the run from the start is what has been done so far
      followed by the run from record i. */
  predicate RunSplitsAt(records: seq<Message<VehicleDetails>>, notice: Message<VehicleDetails> -> string,
                        publishFaults: set<nat>, deleteFaults: set<nat>, i: nat,
                        published: seq<string>, deleted: seq<Handle>)
    requires i <= |records|
  {
    var rest := RunFrom(records, notice, publishFaults, deleteFaults, i);
    RunFrom(records, notice, publishFaults, deleteFaults, 0)
      == TicketRun(published + rest.published, deleted + rest.deleted, rest.outcome)
  }

  /** Before the first record nothing is done and the rest is the whole run. */
  lemma RunSplitStarts(records: seq<Message<VehicleDetails>>, notice: Message<VehicleDetails> -> string,
                       publishFaults: set<nat>, deleteFaults: set<nat>)
    ensures RunSplitsAt(records, notice, publishFaults, deleteFaults, 0, [], [])
  {
    var run := RunFrom(records, notice, publishFaults, deleteFaults, 0);
    assert [] + run.published == run.published && [] + run.deleted == run.deleted;
  }

  /** A record that publishes and deletes moves the split one record on. */
  lemma RunSplitAdvances(records: seq<Message<VehicleDetails>>, notice: Message<VehicleDetails> -> string,
                         publishFaults: set<nat>, deleteFaults: set<nat>, i: nat,
                         published: seq<string>, deleted: seq<Handle>)
    requires i < |records| && i !in publishFaults && i !in deleteFaults
    requires RunSplitsAt(records, notice, publishFaults, deleteFaults, i, published, deleted)
    ensures RunSplitsAt(records, notice, publishFaults, deleteFaults, i + 1,
                        published + [notice(records[i])], deleted + [records[i].receiptHandle])
  {
    var rest := RunFrom(records, notice, publishFaults, deleteFaults, i + 1);
    assert published + ([notice(records[i])] + rest.published) == (published + [notice(records[i])]) + rest.published;
    assert deleted + ([records[i].receiptHandle] + rest.deleted) == (deleted + [records[i].receiptHandle]) + rest.deleted;
  }

  /** At the end of the batch, the split is the whole run, which passes. */
  lemma RunSplitPasses(records: seq<Message<VehicleDetails>>, notice: Message<VehicleDetails> -> string,
                       publishFaults: set<nat>, deleteFaults: set<nat>,
                       published: seq<string>, deleted: seq<Handle>)
    requires RunSplitsAt(records, notice, publishFaults, deleteFaults, |records|, published, deleted)
    ensures RunFrom(records, notice, publishFaults, deleteFaults, 0) == TicketRun(published, deleted, Pass)
  {
    assert published + [] == published && deleted + [] == deleted;
  }

  /** At a record whose publish fails, the split is the whole run, which fails there. */
  lemma RunSplitPublishFails(records: seq<Message<VehicleDetails>>, notice: Message<VehicleDetails> -> string,
                             publishFaults: set<nat>, deleteFaults: set<nat>, i: nat,
                             published: seq<string>, deleted: seq<Handle>)
    requires i < |records| && i in publishFaults
    requires RunSplitsAt(records, notice, publishFaults, deleteFaults, i, published, deleted)
    ensures RunFrom(records, notice, publishFaults, deleteFaults, 0) == TicketRun(published, deleted, Fail(PublishFailed(i)))
  {
    assert published + [] == published && deleted + [] == deleted;
  }

  /** At a record whose delete fails, the run also holds that record's notice and fails there. */
  lemma RunSplitDeleteFails(records: seq<Message<VehicleDetails>>, notice: Message<VehicleDetails> -> string,
                            publishFaults: set<nat>, deleteFaults: set<nat>, i: nat,
                            published: seq<string>, deleted: seq<Handle>)
    requires i < |records| && i !in publishFaults && i in deleteFaults
    requires RunSplitsAt(records, notice, publishFaults, deleteFaults, i, published, deleted)
    ensures RunFrom(records, notice, publishFaults, deleteFaults, 0)
              == TicketRun(published + [notice(records[i])], deleted, Fail(DeleteFailed(i)))
  {
    assert deleted + [] == deleted;
  }

  /** sendEmailNotification: publishes the notice; a failure is rethrown (`false`). */
  method SendEmailNotification(topic: Topic, message: string, fault: bool) returns (ok: bool)
    modifies topic
    ensures ok == !fault
    ensures topic.published == old(topic.published) + (if fault then [] else [message])
  {
    ok := topic.Publish(message, fault);
  }

  /** deleteMessageFromSQSQueue: deletes the record; a failure is rethrown (`false`). */
  method DeleteMessageFromSqsQueue(queue: Queue<VehicleDetails>, receiptHandle: Handle, fault: bool) returns (ok: bool)
    requires queue.Valid()
    modifies queue
    ensures queue.Valid() && ok == !fault && queue.nextHandle == old(queue.nextHandle)
    ensures queue.messages == if fault then old(queue.messages) else Without(old(queue.messages), {receiptHandle})
  {
    ok := queue.Delete(receiptHandle, fault);
  }

  /**
   * The handler's record loop, for a given way `notice` of turning a record into its
   * notice text: each record's notice is published and then the record is deleted,
   * in order, and the first call that fails ends the loop with its error. The topic
   * receives the run's notices, the upward queue loses exactly the run's deleted
   * handles, and the outcome is the run's.
   */
  method PublishAndDelete(records: seq<Message<VehicleDetails>>, notice: Message<VehicleDetails> -> string,
                          publishFaults: set<nat>, deleteFaults: set<nat>, upward: Queue<VehicleDetails>, topic: Topic)
    returns (outcome: Outcome<TicketError>)
    requires upward.Valid()
    modifies upward, topic
    ensures upward.Valid() && upward.nextHandle == old(upward.nextHandle)
    ensures var run := RunFrom(records, notice, publishFaults, deleteFaults, 0);
      && outcome == run.outcome
      && topic.published == old(topic.published) + run.published
      && upward.messages == Without(old(upward.messages), HandleSet(run.deleted))
  {
    ghost var topic0, upward0 := topic.published, upward.messages;
    ghost var published: seq<string> := [];
    ghost var deleted: seq<Handle> := [];
    WithoutNothing(upward.messages, HandleSet(deleted));
    RunSplitStarts(records, notice, publishFaults, deleteFaults);
    var i := 0;
    while i < |records|
      invariant 0 <= i <= |records|
      invariant upward.Valid() && upward.nextHandle == old(upward.nextHandle)
      invariant topic.published == topic0 + published
      invariant upward.messages == Without(upward0, HandleSet(deleted))
      invariant RunSplitsAt(records, notice, publishFaults, deleteFaults, i, published, deleted)
    {
      var record := records[i];
      var emailBody := notice(record);
      var sent := SendEmailNotification(topic, emailBody, i in publishFaults);
      if !sent {
        RunSplitPublishFails(records, notice, publishFaults, deleteFaults, i, published, deleted);
        return Fail(PublishFailed(i));
      }
      assert topic.published == topic0 + (published + [emailBody]);
      var removed := DeleteMessageFromSqsQueue(upward, record.receiptHandle, i in deleteFaults);
      if !removed {
        RunSplitDeleteFails(records, notice, publishFaults, deleteFaults, i, published, deleted);
        return Fail(DeleteFailed(i));
      }
      WithoutOneMore(upward0, deleted, record.receiptHandle);
      RunSplitAdvances(records, notice, publishFaults, deleteFaults, i, published, deleted);
      published := published + [emailBody];
      deleted := deleted + [record.receiptHandle];
      i := i + 1;
    }
    RunSplitPasses(records, notice, publishFaults, deleteFaults, published, deleted);
    outcome := Pass;
  }

  /**
   * handler: the record loop, where a record's notice is formatted from its parsed body
   * and the fine for its violation type.
   */
  method Handler(records: seq<Message<VehicleDetails>>, render: string -> string,
                 publishFaults: set<nat>, deleteFaults: set<nat>, upward: Queue<VehicleDetails>, topic: Topic)
    returns (outcome: Outcome<TicketError>)
    requires upward.Valid()
    modifies upward, topic
    ensures upward.Valid() && upward.nextHandle == old(upward.nextHandle)
    ensures var run := RunFrom(records, Notices(render), publishFaults, deleteFaults, 0);
      && outcome == run.outcome
      && topic.published == old(topic.published) + run.published
      && upward.messages == Without(old(upward.messages), HandleSet(run.deleted))
  {
    outcome := PublishAndDelete(records, Notices(render), publishFaults, deleteFaults, upward, topic);
  }
}
