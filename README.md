# License-plate violation pipeline, modelled in Dafny

The pipeline has three stages that talk only through queues, an event bus and a
notification topic:

- **PlateReader** (`PlateReader.js`) runs once per stored image. It reads the image's
  violation metadata, classifies the detected text against the California plate
  grammar `^[0-9][A-Z]{3}[0-9]{3}$`, and sends exactly one message. A California
  plate goes to the downward FIFO queue (group `defaultGroup`). Anything else goes
  to the `nonCaliPlate` event bus (source `custom.imageProcessing`, detail type
  `Image Processed`).
- **DMVServer** (`DMVServer.js`) polls the downward queue for at most one message at
  a time and looks its plate up in the vehicle registry. On a hit it sends the
  vehicle record, with the violation, time and location added, to the upward queue
  (group `DMVDataGroup`). It then deletes the source message whether or not the
  plate was found.
- **TicketProcessing** (`TicketProcessing.js`) handles a batch from the upward queue
  in order. For each record it looks up the fine, formats the notice, publishes it
  and deletes the record. The first failing publish or delete ends the batch with
  that error.

Modules, one file each:

- `Outcomes` (`outcomes.dfy`): `Option`, `Result` and `Outcome`, standing in for
  `null`/`undefined` and for thrown errors.
- `Text` (`text.dfy`): ASCII character classes, `toUpperCase` on one character, decimal
  rendering of naturals, line `Join`/`Split`.
- `Cloud` (`cloud.dfy`): the external services as classes over sequences.
  - `Queue<T>`: messages oldest first, under strictly increasing receipt handles.
  - `EventBus<T>`: the entries put on it.
  - `Topic`: the texts published to it.
  Each call takes a `fault` flag that says whether the service call fails.
- `Messages` (`messages.dfy`): the payload shapes (message detail, vehicle record,
  enriched vehicle record).
- `PlateReader`, `DMVServer`, `TicketProcessing`: the three stages.

The model follows the code as written:

- an unknown violation type gives the fine `undefined`, which is printed into the
  notice;
- a registry miss is only logged, and the source message is still deleted;
- failed sends in PlateReader and DMVServer are logged and swallowed;
- deduplication ids are the plate, a dash and the send time, so they depend on the
  clock and not on the content;
- the plate text "9XYZ987" is one digit, three letters and three digits, so the
  code's regular expression accepts it as a California plate
  (`PlateReader.NineXyzIsCalifornian`).

## Model

| member | source | states |
|---|---|---|
| Text.ToUpper | PlateReader.js:91 | upper-casing leaves no lower-case letter, turns each lower-case letter into its own capital (the same position in the alphabet), keeps whitespace, and leaves every non-lower-case character unchanged |
| Text.NatToString | PlateReader.js:124 | a number prints as a non-empty string of decimal digits, with no leading zero, and as "0" exactly when it is zero |
| Text.DigitsValueOfNatToString | TicketProcessing.js:56 | the digits printed for a number read back as that number |
| Text.SplitJoin | TicketProcessing.js:49-56 | lines without line breaks, joined with "\n", split back into the same lines |
| Text.DashedNumberParts | PlateReader.js:124 | text, a dash and a number put together can be taken apart again: the text is the prefix, a dash follows, and the rest is digits that read back as the number |
| Cloud.WithoutWithin | DMVServer.js:128-135 | deleting by receipt handle keeps the remaining messages in their order and within their handle bounds |
| Cloud.WithoutHead | DMVServer.js:99 | deleting the oldest message's handle leaves exactly the messages after it |
| Cloud.WithoutOneMore | TicketProcessing.js:35 | deleting one more handle after a set of handles equals deleting the enlarged set at once |
| Cloud.Without | DMVServer.js:128-135 | deleting a set of handles never lengthens the queue |
| Cloud.WithoutDropsHandles | DMVServer.js:128-135 | after deleting a set of handles no remaining message carries one of them |
| Cloud.Queue.Send | DMVServer.js:108-120 | a successful send appends one message under the next handle with the given group and deduplication id; a failed send changes nothing |
| Cloud.Queue.Receive | DMVServer.js:62-68 | a receive returns at most one message, the oldest, or nothing when the queue is empty or the call fails |
| Cloud.Queue.Delete | DMVServer.js:128-135 | a successful delete removes the messages with that handle and nothing else; a failed one changes nothing |
| Cloud.EventBus.PutEvents | PlateReader.js:128-140 | a successful put appends the one entry; a failed put changes nothing |
| Cloud.Topic.Publish | TicketProcessing.js:60-69 | a successful publish appends the message; a failed publish changes nothing |
| PlateReader.Normalize | PlateReader.js:91 | the normalised text has no whitespace and no lower-case letter and is never longer than the detected text |
| PlateReader.NormalizeKeepsNormalText | PlateReader.js:91 | text that is already upper case with no whitespace stays as it is |
| PlateReader.NormalizeConcat | PlateReader.js:91 | normalising a concatenation concatenates the normalised pieces |
| PlateReader.NormalizeOneChar | PlateReader.js:91 | a whitespace character is dropped and a lower-case letter becomes its capital |
| PlateReader.NormalizeIdempotent | PlateReader.js:91 | normalising twice is the same as normalising once |
| PlateReader.IsCaliforniaPlate | PlateReader.js:85-93 | text the grammar accepts has exactly seven characters, none of them whitespace or lower case, so it is already in normalised form |
| PlateReader.Classify | PlateReader.js:83-101 | the result is Californian exactly when the plate number is non-empty, and a Californian plate number satisfies the grammar |
| PlateReader.ClassifyAcceptsFirstMatch | PlateReader.js:89-97 | when detection i is the first whose normalised text matches, the result is that text, marked Californian |
| PlateReader.ClassifiedPlateIsFirstMatch | PlateReader.js:89-100 | an accepted plate is the normalised text of the first matching detection |
| PlateReader.ClassifyAcceptsIffSomeMatch | PlateReader.js:86-100 | a plate is accepted exactly when some detection matches the grammar |
| PlateReader.ClassifyWithoutMatch | PlateReader.js:86-100 | with no matching detection the result is the empty plate, marked not Californian |
| PlateReader.ClassifyDependsOnlyOnNormalizedText | PlateReader.js:89-93 | detections whose normalised texts agree pointwise classify alike, whatever their case, spacing or confidence |
| PlateReader.ClassifyIgnoresConfidence | PlateReader.js:89-93 | confidence scores never change the classification |
| PlateReader.ExtractLicensePlateInfo | PlateReader.js:83-101 | the scan that stops at the first match returns the classification of the detections |
| PlateReader.GenerateDeduplicationId | PlateReader.js:122-125 | the id is the plate, a dash and digits that read back as the send time |
| PlateReader.DeduplicationIdDependsOnTime | PlateReader.js:122-125 | the same detail sent at two different times gets two different ids |
| PlateReader.SendMessageToSqsQueue | PlateReader.js:104-119 | a successful send appends one message in group defaultGroup with id plate-time; a failed send is swallowed and changes nothing |
| PlateReader.SendEventToEventBridge | PlateReader.js:128-145 | a successful put appends one entry with the bus name, the fixed source and detail type, and the detail; a failed put is swallowed |
| PlateReader.DecodeKey | PlateReader.js:30 | the object key keeps its length, with every '+' turned into a space and every other character kept |
| PlateReader.PlanRoute | PlateReader.js:23-74 | no records, a missing object and a failed detection are the only errors, each before any send; otherwise the detail carries the image key, the classified plate and the metadata unchanged, goes to the queue exactly for a Californian plate (which satisfies the grammar), and reaches the bus with an empty plate |
| PlateReader.Handler | PlateReader.js:18-80 | an error changes no sink; otherwise the queue alone gets the message for a Californian plate and the bus alone gets the event for any other plate |
| PlateReader.PlateBeforeOtherText | PlateReader.js:89-97 | a valid plate ahead of other text is accepted as written |
| PlateReader.NineXyzIsCalifornian | PlateReader.js:85 | "9XYZ987" satisfies the grammar and is accepted |
| PlateReader.FirstPlateBeatsMoreConfidentOne | PlateReader.js:89-96 | of two valid plates the first in order wins, even when the second has the higher confidence |
| DMVServer.Lookup | DMVServer.js:43-54 | a found record names exactly the queried plate |
| DMVServer.LookupFindsFirst | DMVServer.js:43 | the first registry vehicle with the plate is the one returned, and later duplicates are ignored |
| DMVServer.LookupMissesIffAbsent | DMVServer.js:43-44 | the lookup misses exactly when no registry vehicle carries the plate |
| DMVServer.LookupCopiesVehicle | DMVServer.js:45-54 | a found record copies make, model, color, owner name and contact from the first vehicle with the plate |
| DMVServer.QueryDMVDatabase | DMVServer.js:32-58 | the linear search returns the lookup's result: the first vehicle with exactly that plate, or nothing |
| DMVServer.Enrich | DMVServer.js:85-89 | the upward record is the found vehicle unchanged plus the message's violation, time and location |
| DMVServer.EnrichedPlateIsQueried | DMVServer.js:45-46 | the enriched record names the plate the message asked for |
| DMVServer.UpwardDeduplicationId | DMVServer.js:113 | the id is the vehicle plate, a dash and digits that read back as the send time |
| DMVServer.PostMessageToUpwardQueue | DMVServer.js:108-125 | a successful send appends one message in group DMVDataGroup with id plate-time; a failed send is swallowed and changes nothing |
| DMVServer.DeleteMessageFromQueue | DMVServer.js:128-141 | a successful delete removes the handle's message; a failed delete is swallowed and leaves the queue as it was |
| DMVServer.Forwarded | DMVServer.js:83-97 | a poll forwards at most one record, and exactly one when the plate is in the registry and the send succeeds; that record is the looked-up vehicle with the message's violation, time and location, in group DMVDataGroup |
| DMVServer.PollDownwardQueue | DMVServer.js:61-105 | a failed receive throws and an empty queue changes nothing; otherwise the oldest message's enriched record is appended upward on a hit, and that message is then removed unless the delete fails |
| DMVServer.RegistryHitExample | DMVServer.js:43-54 | a registry entry for 3ABC123 and a no_stop message enrich to the full record |
| TicketProcessing.FineFor | TicketProcessing.js:14-18 | a fine exists exactly for no_stop (300), no_full_stop_on_right (75) and no_right_on_red (125) |
| TicketProcessing.FineText | TicketProcessing.js:56 | a known fine prints as digits that read back as the fine, an unknown one as "undefined", and neither holds a line break |
| TicketProcessing.EmailLines | TicketProcessing.js:49-56 | the notice has eight lines, the greeting first and the amount last, and they are free of line breaks exactly when the owner name, color, make, model, plate, rendered time, location and violation type are |
| TicketProcessing.FormatEmailBody | TicketProcessing.js:45-57 | the notice opens with the greeting line and closes with the amount line, and when its lines hold no line break it splits into exactly the eight template lines |
| TicketProcessing.KnownFineIsPrinted | TicketProcessing.js:56 | a known violation's notice ends with "Ticket amount: $" and the fine's digits, which read back as the fine |
| TicketProcessing.NoStopCosts300 | TicketProcessing.js:15 | a no_stop notice's amount line reads "Ticket amount: $300" |
| TicketProcessing.UnknownFineIsUndefined | TicketProcessing.js:28 | an unknown violation's notice ends with "Ticket amount: $undefined" |
| TicketProcessing.RunFrom | TicketProcessing.js:24-41 | a failed batch names a record of the batch: a failed publish names a record whose publish fails, a failed delete one whose publish succeeds and whose delete fails |
| TicketProcessing.RunIsOrderedPrefix | TicketProcessing.js:24-36 | the deleted records are the first records in order; the published notices are for the same records plus at most one more, which exists exactly when a delete failed |
| TicketProcessing.RunPassesIffNoFault | TicketProcessing.js:21-42 | the batch succeeds exactly when no publish and no delete fails, and then every record is published and deleted |
| TicketProcessing.RunStopsAtFirstFault | TicketProcessing.js:33-41 | the first failure at record k ends the batch with its error: before k all is published and deleted; k is published only when its delete failed |
| TicketProcessing.SendEmailNotification | TicketProcessing.js:60-76 | a successful publish appends the notice; a failure is reported to the caller and changes nothing |
| TicketProcessing.DeleteMessageFromSqsQueue | TicketProcessing.js:79-94 | a successful delete removes the record's message; a failure is reported to the caller and changes nothing |
| TicketProcessing.PublishAndDelete | TicketProcessing.js:24-36 | for any notice function, the loop gives the run's outcome, appends the run's notices to the topic and removes exactly the run's deleted handles from the queue |
| TicketProcessing.Handler | TicketProcessing.js:21-42 | the topic receives the formatted notices of the run, in order; the upward queue loses exactly the run's deleted handles; the outcome is the run's |

## Left out

- AWS SDK calls, network I/O and the clients' regions and URLs: queues, bus and topic are in-memory classes, and each call's failure is a fault input.
- Visibility timeouts, redelivery, message-group delivery rules and deduplication windows: a receive always offers the oldest message, and deduplication ids are stored but never compared.
- Long polling, the 20-second wait and the five-second `setInterval` loop: one poll is one call of `DMVServer.PollDownwardQueue`; concurrent replicas are not modelled.
- JSON serialisation and parsing of message bodies: messages carry typed records, so a malformed body, which would throw, cannot occur.
- Reading and parsing the XML registry file: the registry is a sequence of records, and a parse error (which would give a miss) is not modelled.
- The log file and console output: they change no modelled state.
- `Date.now()`: the time is the parameter `now`.
- `toLocaleString` in the Los Angeles time zone: it is the parameter `render`.
- Text.ToUpper: ASCII only; `toUpperCase` on non-ASCII letters is not modelled.
- Text.IsWhitespace: the ASCII members of `\s` only; Unicode spaces are not modelled.
- PlateReader.DecodeKey: models the `+`-to-space replacement only; the percent-decoding of `decodeURIComponent`, and its error on a malformed escape, are not modelled.
- PlateReader.Handler: object metadata always has its three fields; a field missing from the stored metadata (`undefined` in the message) is not modelled.
- PlateReader.Handler: a missing `s3` member in a record and a missing `TextDetections` list in the detection response are not modelled.
- PlateReader.SendEventToEventBridge: a `FailedEntryCount` in a successful response is not examined, as in PlateReader.js; the model's put is all-or-nothing.
- TicketProcessing.FineFor: keys inherited from the object prototype (such as `constructor`) are not modelled; such a violation type counts as unknown.
- TicketProcessing.Handler: a missing `Records` list is not modelled.
- DMVServer.PollDownwardQueue: the send-before-delete order is not observable in the final state; the contract states the final state only.
- UploadData.js is not part of this model.
