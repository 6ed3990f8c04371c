/**
 * The status presenter: the colour and the staggered error messages a grid
 * cell gets from its item's `Status` and `Error` fields.
 */
module Status {
  import opened Wrappers
  import opened Text

  /** One entry of the feed: `{Name, Status, Error}`; `Error` may be absent. */
  datatype Item = Item(name: string, status: string, error: Option<string>)

  datatype Colour = Green | Red | Gray

  /** One error line of a cell, revealed `delaySeconds` after the cell appears. */
  datatype Message = Message(text: string, delaySeconds: nat)

  /** What a cell shows besides its name: a background colour and error lines. */
  datatype Look = Look(colour: Option<Colour>, messages: seq<Message>)

  /** Seconds between the reveals of two consecutive error messages. */
  const MessageStagger := 12

  /** The page reads `Error` only for "Error" items; there it must be present. */
  predicate Presentable(item: Item) {
    item.status == "Error" ==> item.error.Some?
  }

  /**
   * The error lines of an error detail: each comma-separated fragment,
   * trimmed, the k-th delayed by `12 * k` seconds.
   */
  function ErrorMessages(detail: string): (msgs: seq<Message>)
    ensures |msgs| == Occurrences(detail, ',') + 1
    ensures forall k :: 0 <= k < |msgs| ==>
      msgs[k].delaySeconds == MessageStagger * k && ',' !in msgs[k].text &&
      (msgs[k].text == [] || (!IsSpace(msgs[k].text[0]) && !IsSpace(msgs[k].text[|msgs[k].text| - 1])))
  {
    var parts := Split(detail, ',');
    SplitCount(detail, ',');
    var msgs := seq(|parts|, k requires 0 <= k < |parts| => Message(Trim(parts[k]), MessageStagger * k));
    forall k | 0 <= k < |msgs|
      ensures ',' !in msgs[k].text
    {
      SplitPiecesFree(detail, ',', k);
      TrimKeepsAbsent(parts[k], ',');
    }
    msgs
  }

  /** The `switch (cellInfo.Status)` of the cell builder. */
  function Present(item: Item): (look: Look)
    requires Presentable(item)
    ensures look.colour == Some(Green) <==> item.status == "Healthy"
    ensures look.colour == Some(Red) <==> item.status == "Unhealthy"
    ensures look.colour == Some(Gray) <==> item.status == "Error"
    ensures look.colour == None <==> item.status !in {"Healthy", "Unhealthy", "Error"}
    ensures look.messages != [] <==> item.status == "Error"
    ensures item.status == "Error" ==> look.messages == ErrorMessages(item.error.value)
  {
    match item.status
    case "Healthy" => Look(Some(Green), [])
    case "Unhealthy" => Look(Some(Red), [])
    case "Error" => Look(Some(Gray), ErrorMessages(item.error.value))
    case _ => Look(None, [])
  }

  /** The fragments of an error detail, in order, are the trimmed comma-separated pieces. */
  lemma ErrorMessagesText(detail: string, k: nat)
    requires k < |ErrorMessages(detail)|
    ensures |Split(detail, ',')| == |ErrorMessages(detail)|
    ensures ErrorMessages(detail)[k] == Message(Trim(Split(detail, ',')[k]), MessageStagger * k)
  {
    SplitCount(detail, ',');
  }

  /** Neither example cause has whitespace at its ends, so trimming keeps it, and drops the one leading space. */
  lemma TrimmedCauses(first: string, cause: string)
    requires first == "disk full" && cause == "cpu high"
    ensures Trim(first) == first
    ensures Trim([' '] + cause) == cause
  {
    assert !IsSpace(first[0]) && !IsSpace(first[|first| - 1]);
    assert !IsSpace(cause[0]) && !IsSpace(cause[|cause| - 1]);
    TrimOfTrimmed(first);
    TrimOfTrimmed(cause);
    assert ([' '] + cause)[1..] == cause;
  }

  /** "disk full, cpu high" splits at its one comma into two pieces. */
  lemma ExampleDetailPieces(detail: string, first: string, cause: string)
    requires detail == "disk full, cpu high" && first == "disk full" && cause == "cpu high"
    ensures Split(detail, ',') == [first, [' '] + cause]
  {
    var second := [' '] + cause;
    assert detail == first + [','] + second;
    SplitAtFirst(first, second, ',');
    SplitWithoutSeparator(second, ',');
  }

  /** "disk full, cpu high" becomes two lines, revealed at 0 s and at 12 s. */
  lemma TwoErrorCauses(detail: string)
    requires detail == "disk full, cpu high"
    ensures Present(Item("db01", "Error", Some(detail))) ==
            Look(Some(Gray), [Message("disk full", 0), Message("cpu high", 12)])
  {
    var first, cause := "disk full", "cpu high";
    ExampleDetailPieces(detail, first, cause);
    TrimmedCauses(first, cause);
    TwoPieces(detail, first, [' '] + cause);
  }

  /** A detail with exactly two pieces gives two messages, 12 seconds apart. */
  lemma TwoPieces(detail: string, p0: string, p1: string)
    requires Split(detail, ',') == [p0, p1]
    ensures ErrorMessages(detail) == [Message(Trim(p0), 0), Message(Trim(p1), 12)]
  {
    var msgs := ErrorMessages(detail);
    ErrorMessagesText(detail, 0);
    assert |msgs| == 2;
    ErrorMessagesText(detail, 1);
    assert msgs == [msgs[0], msgs[1]];
  }
}
