/** Splitting a log into parts of bounded size, fed from the journal. */
module Archivator {

  newtype byte = x: int | 0 <= x < 256

  type Bytes = seq<byte>

  /** A compressed stream is known by what was written to it and whether it was closed. */
  datatype Stream = Stream(content: Bytes, closed: bool)

  datatype Status = Ok | Empty

  datatype PushLog = PushLog(logID: string, partsCount: nat, part: nat, content: Stream, status: Status)

  /** What reading one journal row gives: an entry, no entry, or an error. */
  datatype Row = Entry(realtime: nat, text: Bytes) | NoEntry | Failure

  /** The closed parts and the part that is being written. */
  datatype Split = Split(parts: seq<Bytes>, rest: Bytes)

  function Feed(s: Split, message: Bytes, maxPartSize: nat): Split {
    var rest := s.rest + message;
    if |rest| > maxPartSize then Split(s.parts + [rest], []) else Split(s.parts, rest)
  }

  function SplitAll(messages: seq<Bytes>, maxPartSize: nat): Split {
    if messages == [] then Split([], [])
    else Feed(SplitAll(messages[..|messages| - 1], maxPartSize), messages[|messages| - 1], maxPartSize)
  }

  function Concat(messages: seq<Bytes>): Bytes {
    if messages == [] then [] else Concat(messages[..|messages| - 1]) + messages[|messages| - 1]
  }

  /** The journal ends the log here: an error, no entry, or an entry after the till time. */
  predicate Ends(row: Row, till: nat) {
    match row
    case Entry(realtime, text) => till != 0 && realtime > till
    case NoEntry => true
    case Failure => true
  }

  /** The messages of the rows before the first one that ends the log. */
  function Messages(rows: seq<Row>, till: nat): seq<Bytes> {
    if rows == [] || Ends(rows[0], till) then [] else [rows[0].text] + Messages(rows[1..], till)
  }

  /** How many messages are accepted: until one comes when all parts are closed. */
  function Accepted(messages: seq<Bytes>, maxPartSize: nat, maxPartCount: nat): (n: nat)
    ensures n <= |messages|
  {
    if messages == [] then 0
    else
      var last := |messages| - 1;
      var n := Accepted(messages[..last], maxPartSize, maxPartCount);
      if n == last && |SplitAll(messages[..last], maxPartSize).parts| < maxPartCount then n + 1 else n
  }

  function Contents(s: Split): seq<Bytes> {
    if |s.rest| > 0 then s.parts + [s.rest] else s.parts
  }

  function Pushes(logID: string, s: Split): seq<PushLog> {
    var contents := Contents(s);
    if contents == [] then [PushLog(logID, 1, 1, Stream([], true), Empty)]
    else
      seq(|contents|, i requires 0 <= i < |contents| =>
        PushLog(logID, |contents|, i + 1, Stream(contents[i], true), Ok))
  }

  /* ---- The split keeps every byte and bounds every part ---- */

  lemma {:induction false} ConcatAppend(a: seq<Bytes>, x: Bytes)
    ensures Concat(a + [x]) == Concat(a) + x
  {
    assert (a + [x])[..|a|] == a;
  }

  lemma {:induction false} ConcatConcat(a: seq<Bytes>, b: seq<Bytes>)
    ensures Concat(a + b) == Concat(a) + Concat(b)
  {
    if b == [] {
      assert a + b == a;
    } else {
      assert (a + b)[..|a + b| - 1] == a + b[..|b| - 1];
      ConcatConcat(a, b[..|b| - 1]);
    }
  }

  lemma FeedKeepsBytes(s: Split, message: Bytes, maxPartSize: nat)
    ensures var t := Feed(s, message, maxPartSize);
            Concat(t.parts) + t.rest == Concat(s.parts) + s.rest + message
  {
    ConcatAppend(s.parts, s.rest + message);
    hide Concat;
  }

  lemma {:induction false} SplitKeepsBytes(messages: seq<Bytes>, maxPartSize: nat)
    ensures Concat(SplitAll(messages, maxPartSize).parts) + SplitAll(messages, maxPartSize).rest == Concat(messages)
  {
    if messages != [] {
      var last := |messages| - 1;
      SplitKeepsBytes(messages[..last], maxPartSize);
      FeedKeepsBytes(SplitAll(messages[..last], maxPartSize), messages[last], maxPartSize);
      hide Feed;
    }
  }

  /** Every closed part exceeds the limit, and by less than the length of some message. */
  lemma {:induction false} PartSizes(messages: seq<Bytes>, maxPartSize: nat, longest: nat)
    requires forall m :: m in messages ==> |m| <= longest
    ensures forall p :: p in SplitAll(messages, maxPartSize).parts ==>
              maxPartSize < |p| <= maxPartSize + longest
    ensures |SplitAll(messages, maxPartSize).rest| <= maxPartSize
  {
    if messages != [] {
      var last := |messages| - 1;
      PartSizes(messages[..last], maxPartSize, longest);
    }
  }

  /* ---- The accepted messages are the longest prefix that fits ---- */

  lemma {:induction false} AcceptedIsLongest(messages: seq<Bytes>, maxPartSize: nat, maxPartCount: nat)
    ensures var n := Accepted(messages, maxPartSize, maxPartCount);
            && |SplitAll(messages[..n], maxPartSize).parts| <= maxPartCount
            && (forall k :: 0 <= k < n ==> |SplitAll(messages[..k], maxPartSize).parts| < maxPartCount)
            && (n < |messages| ==>
                  |SplitAll(messages[..n], maxPartSize).parts| == maxPartCount
                  && SplitAll(messages[..n], maxPartSize).rest == [])
  {
    var n := Accepted(messages, maxPartSize, maxPartCount);
    if messages != [] {
      var last := |messages| - 1;
      AcceptedIsLongest(messages[..last], maxPartSize, maxPartCount);
      assert forall k :: 0 <= k <= last ==> messages[..last][..k] == messages[..k];
      var before := Accepted(messages[..last], maxPartSize, maxPartCount);
      if before == last {
        assert messages[..last + 1] == messages;
        if n == last && last > 0 {
          LastClosed(messages[..last], maxPartSize, maxPartCount);
        }
      }
    }
  }

  /** When the last message made the number of parts reach the maximum, it closed a part. */
  lemma LastClosed(messages: seq<Bytes>, maxPartSize: nat, maxPartCount: nat)
    requires messages != [] && |SplitAll(messages[..|messages| - 1], maxPartSize).parts| < maxPartCount
    requires |SplitAll(messages, maxPartSize).parts| >= maxPartCount
    ensures SplitAll(messages, maxPartSize).rest == []
  {
  }

  /* ---- The grouping is unique ---- */

  function Flatten(groups: seq<seq<Bytes>>): seq<Bytes> {
    if groups == [] then [] else Flatten(groups[..|groups| - 1]) + groups[|groups| - 1]
  }

  function Joined(groups: seq<seq<Bytes>>): (r: seq<Bytes>)
    ensures |r| == |groups| && forall i :: 0 <= i < |groups| ==> r[i] == Concat(groups[i])
  {
    seq(|groups|, i requires 0 <= i < |groups| => Concat(groups[i]))
  }

  /** The last message of the group, and no earlier one, makes it exceed the limit. */
  predicate JustFull(group: seq<Bytes>, maxPartSize: nat) {
    group != [] && |Concat(group)| > maxPartSize && |Concat(group[..|group| - 1])| <= maxPartSize
  }

  /** The messages are cut into consecutive groups; all but the last are just full. */
  predicate IsGrouping(groups: seq<seq<Bytes>>, rest: seq<Bytes>, messages: seq<Bytes>, maxPartSize: nat) {
    && Flatten(groups) + rest == messages
    && (forall g :: g in groups ==> JustFull(g, maxPartSize))
    && |Concat(rest)| <= maxPartSize
  }

  /** The parts are the one way to cut the messages into groups that are just full. */
  lemma {:induction false} GroupingIsUnique(
      groups: seq<seq<Bytes>>, rest: seq<Bytes>, messages: seq<Bytes>, maxPartSize: nat)
    requires IsGrouping(groups, rest, messages, maxPartSize)
    ensures SplitAll(messages, maxPartSize) == Split(Joined(groups), Concat(rest))
    decreases |messages|
  {
    if rest != [] {
      var last := |rest| - 1;
      assert messages[..|messages| - 1] == Flatten(groups) + rest[..last];
      assert messages[|messages| - 1] == rest[last];
      GroupingIsUnique(groups, rest[..last], messages[..|messages| - 1], maxPartSize);
    } else if groups != [] {
      var g := groups[|groups| - 1];
      var before := groups[..|groups| - 1];
      assert JustFull(g, maxPartSize);
      var last := |g| - 1;
      assert messages == Flatten(before) + g;
      assert messages[..|messages| - 1] == Flatten(before) + g[..last];
      assert messages[|messages| - 1] == g[last];
      GroupingIsUnique(before, g[..last], messages[..|messages| - 1], maxPartSize);
      assert Joined(groups) == Joined(before) + [Concat(g)];
    }
  }

  lemma {:induction false} GroupingExists(messages: seq<Bytes>, maxPartSize: nat)
    returns (groups: seq<seq<Bytes>>, rest: seq<Bytes>)
    ensures IsGrouping(groups, rest, messages, maxPartSize)
  {
    if messages == [] {
      groups, rest := [], [];
    } else {
      var last := |messages| - 1;
      groups, rest := GroupingExists(messages[..last], maxPartSize);
      var longer := rest + [messages[last]];
      assert longer[..|rest|] == rest;
      assert Flatten(groups) + longer == messages;
      if |Concat(longer)| > maxPartSize {
        assert (groups + [longer])[..|groups|] == groups;
        groups, rest := groups + [longer], [];
      } else {
        rest := longer;
      }
    }
  }

  /* ---- What is delivered ---- */

  function Bodies(sent: seq<PushLog>): (r: seq<Bytes>)
    ensures |r| == |sent| && forall i :: 0 <= i < |sent| ==> r[i] == sent[i].content.content
  {
    seq(|sent|, i requires 0 <= i < |sent| => sent[i].content.content)
  }

  /** The parts are numbered 1 to n once each and every stream is closed. */
  predicate Numbered(logID: string, sent: seq<PushLog>) {
    forall i :: 0 <= i < |sent| ==>
      sent[i].logID == logID && sent[i].part == i + 1 && sent[i].partsCount == |sent| && sent[i].content.closed
  }

  lemma PushesCarry(logID: string, s: Split)
    ensures var sent := Pushes(logID, s);
            && sent != [] && Numbered(logID, sent)
            && Concat(Bodies(sent)) == Concat(s.parts) + s.rest
            && forall i :: 0 <= i < |sent| ==> (sent[i].status == Empty <==> Contents(s) == [])
  {
    var bodies := Bodies(Pushes(logID, s));
    ConcatAppend(s.parts, s.rest);
    if Contents(s) == [] {
      assert bodies == [[]] && bodies[..0] == [];
    } else {
      assert bodies == Contents(s);
    }
  }

  lemma PushSizes(logID: string, s: Split, maxPartSize: nat, bound: nat)
    requires forall p :: p in s.parts ==> maxPartSize < |p| <= bound
    requires |s.rest| <= maxPartSize <= bound
    ensures var bodies := Bodies(Pushes(logID, s));
            && (forall i :: 0 <= i < |bodies| ==> |bodies[i]| <= bound)
            && (forall i :: 0 <= i < |bodies| - 1 ==> |bodies[i]| > maxPartSize)
    ensures Contents(s) == [] <==> Concat(s.parts) + s.rest == []
  {
    if s.parts != [] {
      NotEmpty(s.parts, 0);
    }
    hide Concat;
  }

  /**
   * The whole log: the parts, numbered 1 to n once each, carry exactly the bytes of the accepted messages, all but
   * the last are just over the limit, there are at most maxPartCount of them, and Empty is sent iff there is no byte.
   */
  lemma LogIsDelivered(logID: string, messages: seq<Bytes>, maxPartSize: nat, maxPartCount: nat, longest: nat)
    requires forall m :: m in messages ==> |m| <= longest
    ensures var accepted := messages[..Accepted(messages, maxPartSize, maxPartCount)];
            var sent := Pushes(logID, SplitAll(accepted, maxPartSize));
            var bodies := Bodies(sent);
            && Numbered(logID, sent)
            && Concat(bodies) == Concat(accepted)
            && (forall i :: 0 <= i < |bodies| ==> |bodies[i]| <= maxPartSize + longest)
            && (forall i :: 0 <= i < |bodies| - 1 ==> |bodies[i]| > maxPartSize)
            && (forall i :: 0 <= i < |sent| ==> (sent[i].status == Empty <==> Concat(accepted) == []))
            && (|sent| <= maxPartCount || Concat(accepted) == [])
  {
    var accepted := messages[..Accepted(messages, maxPartSize, maxPartCount)];
    var s := SplitAll(accepted, maxPartSize);
    SplitKeepsBytes(accepted, maxPartSize);
    PartSizes(accepted, maxPartSize, longest);
    FullHasNoRest(messages, maxPartSize, maxPartCount);
    hide SplitAll, Accepted, Concat;
    PushesCarry(logID, s);
    PushSizes(logID, s, maxPartSize, maxPartSize + longest);
    assert Contents(s) != [] ==> |Pushes(logID, s)| == |Contents(s)|;
    hide Pushes, Contents, Numbered;
  }

  lemma FullHasNoRest(messages: seq<Bytes>, maxPartSize: nat, maxPartCount: nat)
    ensures var s := SplitAll(messages[..Accepted(messages, maxPartSize, maxPartCount)], maxPartSize);
            |Contents(s)| <= maxPartCount
  {
    var n := Accepted(messages, maxPartSize, maxPartCount);
    AcceptedIsLongest(messages, maxPartSize, maxPartCount);
    if n > 0 {
      assert messages[..n][..n - 1] == messages[..n - 1];
      assert |SplitAll(messages[..n - 1], maxPartSize).parts| < maxPartCount;
      if |SplitAll(messages[..n], maxPartSize).parts| >= maxPartCount {
        LastClosed(messages[..n], maxPartSize, maxPartCount);
      }
    }
  }

  lemma {:induction false} NotEmpty(parts: seq<Bytes>, i: nat)
    requires i < |parts| && parts[i] != []
    ensures Concat(parts) != []
  {
    ConcatConcat(parts[..i], parts[i..]);
    assert parts == parts[..i] + parts[i..];
    ConcatConcat([parts[i]], parts[i + 1..]);
    assert parts[i..] == [parts[i]] + parts[i + 1..];
    assert [parts[i]][..0] == [];
  }

  /* ---- The archivator ---- */

  class Archivator {
    const maxPartSize: nat
    const maxPartCount: nat
    var logBuffers: seq<Stream>
    var partCount: nat
    var partSize: nat
    var logChannel: seq<PushLog>

    /** The closed buffers and the one being written, which is empty once all parts are closed. */
    ghost predicate Valid()
      reads this
    {
      && |logBuffers| == partCount + 1
      && (forall i :: 0 <= i < partCount ==> logBuffers[i].closed)
      && !logBuffers[partCount].closed
      && partSize == |logBuffers[partCount].content|
    }

    ghost function Value(): (s: Split)
      requires Valid()
      reads this
      ensures |s.parts| == partCount && |s.rest| == partSize
    {
      Split(seq(partCount, i requires 0 <= i < partCount reads this requires partCount <= |logBuffers| =>
              logBuffers[i].content),
            logBuffers[partCount].content)
    }

    constructor (maxPartSize: nat, maxPartCount: nat)
      ensures Valid() && Value() == Split([], []) && logChannel == []
      ensures this.maxPartSize == maxPartSize && this.maxPartCount == maxPartCount
    {
      this.maxPartSize, this.maxPartCount := maxPartSize, maxPartCount;
      logBuffers, partCount, partSize, logChannel := [Stream([], false)], 0, 0, [];
    }

    /** `false`: the maximum part count is reached. */
    method AddLog(message: Bytes) returns (ok: bool)
      requires Valid()
      modifies this
      ensures Valid() && logChannel == old(logChannel)
      ensures ok <==> |old(Value()).parts| < maxPartCount
      ensures Value() == if ok then Feed(old(Value()), message, maxPartSize) else old(Value())
    {
      if partCount >= maxPartCount {
        return false;
      }
      var content := logBuffers[partCount].content + message;
      logBuffers := logBuffers[partCount := Stream(content, false)];
      partSize := partSize + |message|;
      if partSize > maxPartSize {
        logBuffers := logBuffers[partCount := Stream(content, true)];
        logBuffers := logBuffers + [Stream([], false)];
        partCount := partCount + 1;
        partSize := 0;
      }
      return true;
    }

    method SendLog(logID: string)
      requires Valid()
      modifies this
      ensures logChannel == old(logChannel) + Pushes(logID, old(Value()))
    {
      ghost var contents := Contents(Value());
      var last := partCount;
      logBuffers := logBuffers[last := Stream(logBuffers[last].content, true)];
      if partSize > 0 {
        partCount := partCount + 1;
      }
      assert partCount == |contents|;
      if partCount == 0 {
        logChannel := logChannel + [PushLog(logID, 1, 1, Stream([], true), Empty)];
        return;
      }
      ghost var pushes := Pushes(logID, old(Value()));
      var i := 0;
      while i < partCount
        invariant i <= partCount == |contents| == |pushes| && partCount <= |logBuffers|
        invariant forall k :: 0 <= k < partCount ==> logBuffers[k] == Stream(contents[k], true)
        invariant logChannel == old(logChannel) + pushes[..i]
      {
        logChannel := logChannel + [PushLog(logID, partCount, i + 1, logBuffers[i], Ok)];
        i := i + 1;
      }
      assert pushes[..i] == pushes;
    }

    /** Feeds the journal to the archivator; `false`: reading failed before the log ended. */
    method ProcessJournal(rows: seq<Row>, till: nat) returns (ok: bool)
      requires Valid() && Value() == Split([], [])
      modifies this
      ensures Valid() && logChannel == old(logChannel)
      ensures var messages := Messages(rows, till);
              var n := Accepted(messages, maxPartSize, maxPartCount);
              && Value() == SplitAll(messages[..n], maxPartSize)
              && (!ok <==> n == |messages| < |rows| && rows[n] == Failure)
      ensures UpTo(rows, till, Messages(rows, till))
    {
      ghost var messages := Messages(rows, till);
      MessagesUpTo(rows, till);
      hide UpTo;
      var i := 0;
      ok := true;
      while i < |rows|
        invariant i <= |messages| && i <= |rows|
        invariant Valid() && logChannel == old(logChannel)
        invariant Value() == SplitAll(messages[..i], maxPartSize)
        invariant Accepted(messages[..i], maxPartSize, maxPartCount) == i
      {
        MessagesAt(rows, till, i);
        if rows[i] == Failure {
          ok := false;
          break;
        }
        if rows[i] == NoEntry || (till != 0 && rows[i].realtime > till) {
          break;
        }
        assert messages[..i + 1][..i] == messages[..i];
        var added := AddLog(rows[i].text);
        if !added {
          AcceptedStops(messages, i, maxPartSize, maxPartCount);
          return;
        }
        i := i + 1;
      }
      MessagesLength(rows, till);
      assert messages[..i] == messages;
    }

    method GetInstanceLog(logID: string, rows: seq<Row>, till: nat) returns (ok: bool)
      requires Valid() && Value() == Split([], [])
      modifies this
      ensures var messages := Messages(rows, till);
              var n := Accepted(messages, maxPartSize, maxPartCount);
              && (!ok <==> n == |messages| < |rows| && rows[n] == Failure)
              && logChannel == if ok then old(logChannel) + Pushes(logID, SplitAll(messages[..n], maxPartSize))
                               else old(logChannel)
      ensures UpTo(rows, till, Messages(rows, till))
    {
      ok := ProcessJournal(rows, till);
      if ok {
        SendLog(logID);
      }
    }
  }

  lemma {:induction false} MessagesLength(rows: seq<Row>, till: nat)
    ensures |Messages(rows, till)| <= |rows|
  {
    if rows != [] && !Ends(rows[0], till) {
      MessagesLength(rows[1..], till);
    }
  }

  /**
   * The messages are the texts of the first rows: all entries and, if a till time is given, none later than it; the row
   * after them is no entry, or a later one.
   */
  ghost predicate UpTo(rows: seq<Row>, till: nat, messages: seq<Bytes>) {
    && |messages| <= |rows|
    && (forall i :: 0 <= i < |messages| ==>
          rows[i].Entry? && rows[i].text == messages[i] && (till == 0 || rows[i].realtime <= till))
    && (|messages| < |rows| ==>
          !rows[|messages|].Entry? || (till > 0 && till < rows[|messages|].realtime))
  }

  lemma {:induction false} MessagesUpTo(rows: seq<Row>, till: nat)
    ensures UpTo(rows, till, Messages(rows, till))
  {
    if rows != [] && !Ends(rows[0], till) {
      MessagesUpTo(rows[1..], till);
    }
  }

  /** The messages go on at a row iff it does not end the log. */
  lemma {:induction false} MessagesAt(rows: seq<Row>, till: nat, i: nat)
    requires i <= |Messages(rows, till)| && i < |rows|
    ensures if Ends(rows[i], till) then |Messages(rows, till)| == i
            else i < |Messages(rows, till)| && Messages(rows, till)[i] == rows[i].text
  {
    if i == 0 {
    } else {
      MessagesAt(rows[1..], till, i - 1);
    }
  }

  /** Once all parts are closed, no later message is accepted. */
  lemma {:induction false} AcceptedStops(messages: seq<Bytes>, i: nat, maxPartSize: nat, maxPartCount: nat)
    requires i < |messages| && Accepted(messages[..i], maxPartSize, maxPartCount) == i
    requires |SplitAll(messages[..i], maxPartSize).parts| >= maxPartCount
    ensures Accepted(messages, maxPartSize, maxPartCount) == i
    decreases |messages|
  {
    var last := |messages| - 1;
    assert messages[..last][..i] == messages[..i];
    if i < last {
      AcceptedStops(messages[..last], i, maxPartSize, maxPartCount);
    }
  }
}
