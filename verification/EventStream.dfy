/** The event stream between the API and its caches: server-sent events (section 9.2 of
    the WHATWG HTML Living Standard), printed by the API and cut up again by the reader. */
module EventStream {
  import opened Wrappers

  const NL := '\n'

  // ---------- printing ----------

  /** What the handler writes: a backlog event, a live event, or a keepalive comment. */
  datatype Item = Backlog(data: string) | Live(revision: nat, data: string) | KeepAlive

  function Decimal(n: nat): string {
    var digit := ['0', '1', '2', '3', '4', '5', '6', '7', '8', '9'][n % 10];
    if n < 10 then [digit] else Decimal(n / 10) + [digit]
  }

  /** An item without its blank line. */
  function Body(item: Item): string {
    match item
    case Backlog(data) => "data: " + data
    case Live(revision, data) => ("id: " + Decimal(revision)) + [NL] + ("event: auth" + [NL] + ("data: " + data))
    case KeepAlive => ": keepalive"
  }

  function Print(item: Item): string {
    Body(item) + [NL, NL]
  }

  function PrintAll(items: seq<Item>): string {
    if items == [] then "" else Print(items[0]) + PrintAll(items[1..])
  }

  function Payloads(items: seq<Item>): seq<string> {
    if items == [] then []
    else if items[0].KeepAlive? then Payloads(items[1..])
    else [items[0].data] + Payloads(items[1..])
  }

  /** What ends one wait of the handler: an event, the keepalive ticker, or the end of the stream. */
  datatype Wake = Ready(revision: nat, data: string) | Ticked | Closed

  function BacklogItems(backlog: seq<string>): seq<Item> {
    seq(|backlog|, i requires 0 <= i < |backlog| => Backlog(backlog[i]))
  }

  function LiveItem(wake: Wake): Item {
    if wake.Ready? then Live(wake.revision, wake.data) else KeepAlive
  }

  /** The live items up to the end of the stream. */
  function LiveItems(wakes: seq<Wake>): seq<Item> {
    if wakes == [] || wakes[0].Closed? then [] else [LiveItem(wakes[0])] + LiveItems(wakes[1..])
  }

  lemma PrintSingle(item: Item)
    ensures PrintAll([item]) == Print(item)
  {
    assert [item][1..] == [];
    assert PrintAll([item]) == Print(item) + PrintAll([]);
  }

  lemma PrintNext(items: seq<Item>, i: nat)
    requires i < |items|
    ensures PrintAll(items[..i + 1]) == PrintAll(items[..i]) + Print(items[i])
  {
    assert items[..i + 1] == items[..i] + [items[i]];
    PrintAllConcat(items[..i], [items[i]]);
    PrintSingle(items[i]);
  }

  lemma {:induction false} LiveItemAt(wakes: seq<Wake>, i: nat)
    requires i < |wakes| && i <= |LiveItems(wakes)|
    ensures wakes[i].Closed? <==> i == |LiveItems(wakes)|
    ensures i < |LiveItems(wakes)| ==> LiveItems(wakes)[i] == LiveItem(wakes[i])
  {
    if i > 0 {
      LiveItemAt(wakes[1..], i - 1);
    }
  }

  lemma {:induction false} LiveItemsFit(wakes: seq<Wake>)
    ensures |LiveItems(wakes)| <= |wakes|
  {
    if wakes != [] {
      LiveItemsFit(wakes[1..]);
    }
  }

  method Write(text: string, item: Item) returns (longer: string)
    ensures longer == text + Print(item)
  {
    longer := text + Print(item);
  }

  /** The handler writes the backlog and then what it wakes up for, until the stream ends.  However the text is cut,
      the reader gets the backlog and the data of every event in order, and nothing is left over. */
  method AuthEvents(backlog: seq<string>, wakes: seq<Wake>) returns (text: string)
    ensures text == PrintAll(BacklogItems(backlog) + LiveItems(wakes))
    ensures Clean(backlog, wakes) ==>
              forall chunks :: Concat(chunks) == text ==> Feed("", chunks) == Outcome(backlog + ReadyData(wakes), "")
    ensures Clean(backlog, wakes) ==> FrameIds(text) == NoIds(|backlog|) + WakeIds(wakes)
  {
    text := WriteBacklog(backlog);
    var live := WriteLive(wakes);
    text := text + live;
    PrintAllConcat(BacklogItems(backlog), LiveItems(wakes));
    if Clean(backlog, wakes) {
      forall chunks | Concat(chunks) == text ensures Feed("", chunks) == Outcome(backlog + ReadyData(wakes), "") {
        HandlerToReader(backlog, wakes, chunks);
      }
      HandlerIds(backlog, wakes);
    }
  }

  /** The data of the events the handler wakes up for, until the stream ends. */
  function ReadyData(wakes: seq<Wake>): seq<string> {
    if wakes == [] || wakes[0].Closed? then []
    else if wakes[0].Ready? then [wakes[0].data] + ReadyData(wakes[1..])
    else ReadyData(wakes[1..])
  }

  /** JSON text never contains a raw newline. */
  ghost predicate Clean(backlog: seq<string>, wakes: seq<Wake>) {
    && (forall i :: 0 <= i < |backlog| ==> NoNewline(backlog[i]))
    && forall i :: 0 <= i < |wakes| && wakes[i].Ready? ==> NoNewline(wakes[i].data)
  }

  /** The revision each wake's frame is to carry. */
  function WakeIds(wakes: seq<Wake>): seq<Option<nat>> {
    if wakes == [] || wakes[0].Closed? then []
    else [if wakes[0].Ready? then Some(wakes[0].revision) else None] + WakeIds(wakes[1..])
  }

  function NoIds(n: nat): seq<Option<nat>> {
    seq(n, _ => None)
  }

  method WriteBacklog(backlog: seq<string>) returns (text: string)
    ensures text == PrintAll(BacklogItems(backlog))
  {
    text := "";
    ghost var items := BacklogItems(backlog);
    for i := 0 to |backlog|
      invariant text == PrintAll(items[..i])
    {
      PrintNext(items, i);
      text := Write(text, Backlog(backlog[i]));
    }
    assert items[..|items|] == items;
  }

  method WriteLive(wakes: seq<Wake>) returns (text: string)
    ensures text == PrintAll(LiveItems(wakes))
  {
    text := "";
    ghost var items := LiveItems(wakes);
    LiveItemsFit(wakes);
    var i := 0;
    while i < |wakes| && !wakes[i].Closed?
      invariant 0 <= i <= |items| && (i == |wakes| ==> i == |items|)
      invariant text == PrintAll(items[..i])
    {
      LiveItemAt(wakes, i);
      PrintNext(items, i);
      text := Write(text, LiveItem(wakes[i]));
      i := i + 1;
    }
    if i < |wakes| {
      LiveItemAt(wakes, i);
    }
    assert items[..i] == items;
  }

  lemma {:induction false} PrintAllConcat(a: seq<Item>, b: seq<Item>)
    ensures PrintAll(a + b) == PrintAll(a) + PrintAll(b)
  {
    if a == [] {
      assert a + b == b;
    } else {
      assert (a + b)[1..] == a[1..] + b;
      PrintAllConcat(a[1..], b);
    }
  }

  predicate NoNewline(s: string) {
    forall i :: 0 <= i < |s| ==> s[i] != NL
  }

  /** JSON text never contains a raw newline. */
  predicate Printable(item: Item) {
    !item.KeepAlive? ==> NoNewline(item.data)
  }

  predicate AllPrintable(items: seq<Item>) {
    forall i :: 0 <= i < |items| ==> Printable(items[i])
  }

  // ---------- reading ----------

  predicate BreakAt(s: string, i: int) {
    0 <= i < |s| - 1 && s[i] == NL && s[i + 1] == NL
  }

  /** The first blank line from `from` on. */
  function FindBreak(s: string, from: nat): (r: Option<nat>)
    requires from <= |s|
    ensures r.Some? ==> from <= r.value && BreakAt(s, r.value) && forall i :: from <= i < r.value ==> !BreakAt(s, i)
    ensures r.None? ==> forall i :: from <= i ==> !BreakAt(s, i)
    decreases |s| - from
  {
    if from >= |s| then None
    else if BreakAt(s, from) then Some(from)
    else FindBreak(s, from + 1)
  }

  function FindNewline(s: string, from: nat): (r: Option<nat>)
    requires from <= |s|
    ensures r.Some? ==> from <= r.value < |s| && s[r.value] == NL && forall i :: from <= i < r.value ==> s[i] != NL
    ensures r.None? ==> forall i :: from <= i < |s| ==> s[i] != NL
    decreases |s| - from
  {
    if from == |s| then None
    else if s[from] == NL then Some(from)
    else FindNewline(s, from + 1)
  }

  function DataPrefix(line: string): Option<string> {
    if "data: " <= line then Some(line[6..]) else None
  }

  /** A line ended by a newline loses a carriage return before it. */
  function Chomp(line: string): string {
    if line != "" && line[|line| - 1] == '\r' then line[..|line| - 1] else line
  }

  /** The data of the first "data: " line of a frame. */
  function FrameData(frame: string): Option<string>
    decreases |frame|
  {
    match FindNewline(frame, 0)
    case None => DataPrefix(frame)
    case Some(i) =>
      match DataPrefix(Chomp(frame[..i]))
      case Some(data) => Some(data)
      case None => FrameData(frame[i + 1..])
  }

  datatype Outcome = Outcome(data: seq<string>, pending: string)

  function Then(data: seq<string>, later: Outcome): Outcome {
    Outcome(data + later.data, later.pending)
  }

  function Emit(frame: string): seq<string> {
    match FrameData(frame) case Some(data) => [data] case None => []
  }

  /** Cutting complete frames off the pending text. */
  function Drain(pending: string): Outcome
    decreases |pending|
  {
    match FindBreak(pending, 0)
    case None => Outcome([], pending)
    case Some(i) => Then(Emit(pending[..i]), Drain(pending[i + 2..]))
  }

  function Feed(pending: string, chunks: seq<string>): Outcome
    decreases |chunks|
  {
    if chunks == [] then Outcome([], pending)
    else var first := Drain(pending + chunks[0]); Then(first.data, Feed(first.pending, chunks[1..]))
  }

  function Concat(chunks: seq<string>): string {
    if chunks == [] then "" else chunks[0] + Concat(chunks[1..])
  }

  lemma CutOne(data: seq<string>, pending: string)
    requires FindBreak(pending, 0).Some?
    ensures var i := FindBreak(pending, 0).value;
            Then(data, Drain(pending)) == Then(data + Emit(pending[..i]), Drain(pending[i + 2..]))
  {
    var i := FindBreak(pending, 0).value;
    ThenThen(data, Emit(pending[..i]), Drain(pending[i + 2..]));
  }

  /** The reader's inner loop: take frames off the front while there is a blank line. */
  method CutFrames(text: string) returns (data: seq<string>, pending: string)
    ensures Outcome(data, pending) == Drain(text)
  {
    data, pending := [], text;
    while FindBreak(pending, 0).Some?
      invariant Then(data, Drain(pending)) == Drain(text)
      decreases |pending|
    {
      var boundary := FindBreak(pending, 0).value;
      var frame := pending[..boundary];
      CutOne(data, pending);
      pending := pending[boundary + 2..];
      var line := FrameData(frame);
      if line.Some? {
        data := data + [line.value];
      } else {
        assert data + [] == data;
      }
    }
  }

  /** The reader's outer loop over the chunks of the response. */
  method Consume(chunks: seq<string>) returns (data: seq<string>, pending: string)
    ensures Outcome(data, pending) == Feed("", chunks)
  {
    data, pending := [], "";
    for k := 0 to |chunks|
      invariant Then(data, Feed(pending, chunks[k..])) == Feed("", chunks)
    {
      assert chunks[k..][1..] == chunks[k + 1..];
      var more, rest := CutFrames(pending + chunks[k]);
      ThenThen(data, more, Feed(rest, chunks[k + 1..]));
      data, pending := data + more, rest;
    }
  }

  // ---------- chunking ----------

  lemma ThenThen(a: seq<string>, b: seq<string>, o: Outcome)
    ensures Then(a, Then(b, o)) == Then(a + b, o)
  {
    assert a + (b + o.data) == a + b + o.data;
  }

  lemma FirstBreak(s: string, i: nat)
    requires BreakAt(s, i) && forall k :: 0 <= k < i ==> !BreakAt(s, k)
    ensures FindBreak(s, 0) == Some(i)
  {
  }

  /** What is pending after a drain has no blank line; more text only continues it. */
  lemma {:induction false} DrainMore(s: string, more: string)
    ensures FindBreak(Drain(s).pending, 0).None?
    ensures Drain(s + more) == Then(Drain(s).data, Drain(Drain(s).pending + more))
    decreases |s|
  {
    match FindBreak(s, 0)
    case None =>
    case Some(i) =>
      assert forall k :: 0 <= k < i ==> !BreakAt(s + more, k) by {
        assert forall k :: 0 <= k < i ==> BreakAt(s + more, k) == BreakAt(s, k);
      }
      FirstBreak(s + more, i);
      assert (s + more)[..i] == s[..i];
      assert (s + more)[i + 2..] == s[i + 2..] + more;
      DrainMore(s[i + 2..], more);
      var o := Drain(s[i + 2..]);
      ThenThen(Emit(s[..i]), o.data, Drain(o.pending + more));
  }

  /** However the text is cut, the reader sees what it would see in one piece. */
  lemma {:induction false} ChunkingIsInvisible(pending: string, chunks: seq<string>)
    requires FindBreak(pending, 0).None?
    ensures Feed(pending, chunks) == Drain(pending + Concat(chunks))
    decreases |chunks|
  {
    if chunks == [] {
      assert pending + Concat(chunks) == pending;
    } else {
      var more := Concat(chunks[1..]);
      assert pending + Concat(chunks) == pending + chunks[0] + more;
      DrainMore(pending + chunks[0], more);
      ChunkingIsInvisible(Drain(pending + chunks[0]).pending, chunks[1..]);
    }
  }

  // ---------- round trip ----------

  ghost predicate NoBreak(s: string) {
    forall i :: !BreakAt(s, i)
  }

  lemma PlainHasNoBreak(s: string)
    requires NoNewline(s)
    ensures NoBreak(s)
  {
  }

  lemma JoinHasNoBreak(a: string, b: string)
    requires NoNewline(a) && NoBreak(b) && b != "" && b[0] != NL
    ensures NoBreak(a + [NL] + b)
  {
    var s := a + [NL] + b;
    forall i ensures !BreakAt(s, i) {
      if 0 <= i < |s| - 1 {
        if i > |a| {
          assert s[i] == b[i - |a| - 1] && s[i + 1] == b[i - |a|];
          assert !BreakAt(b, i - |a| - 1);
        }
      }
    }
  }

  lemma {:induction false} DecimalIsPlain(n: nat)
    ensures NoNewline(Decimal(n)) && Decimal(n) != ""
    decreases n
  {
    if n >= 10 {
      DecimalIsPlain(n / 10);
    }
  }

  lemma PlainConcat(a: string, b: string)
    requires NoNewline(a) && NoNewline(b)
    ensures NoNewline(a + b)
  {
  }

  lemma SingleLine(line: string)
    requires NoNewline(line)
    ensures FrameData(line) == DataPrefix(line)
  {
  }

  lemma SkipLine(line: string, rest: string)
    requires NoNewline(line) && line != "" && line[0] != 'd' && line[|line| - 1] != '\r'
    ensures FrameData(line + [NL] + rest) == FrameData(rest)
  {
    var s := line + [NL] + rest;
    assert s[|line|] == NL;
    assert FindNewline(s, 0) == Some(|line|);
    assert s[..|line|] == line && s[|line| + 1..] == rest;
    assert "data: "[0] == 'd';
  }

  lemma DataLine(data: string)
    ensures DataPrefix("data: " + data) == Some(data)
  {
    assert ("data: " + data)[6..] == data;
  }

  /** The first data line of a frame counts, without the carriage return a line may end with. */
  lemma FirstDataLine(data: string, rest: string)
    requires NoNewline(data)
    ensures FrameData(("data: " + data) + [NL] + rest) ==
            Some(if data != "" && data[|data| - 1] == '\r' then data[..|data| - 1] else data)
  {
    var line := "data: " + data;
    var s := line + [NL] + rest;
    PlainConcat("data: ", data);
    assert forall i :: 0 <= i < |line| ==> s[i] == line[i];
    assert s[|line|] == NL && FindNewline(s, 0) == Some(|line|);
    assert s[..|line|] == line;
    if data != "" && data[|data| - 1] == '\r' {
      var shorter := data[..|data| - 1];
      assert line[..|line| - 1] == "data: " + shorter;
      DataLine(shorter);
    } else {
      assert line[|line| - 1] != '\r';
      DataLine(data);
    }
  }

  lemma BodyReads(item: Item)
    requires Printable(item)
    ensures NoBreak(Body(item)) && Body(item) != "" && Body(item)[|Body(item)| - 1] != NL
    ensures FrameData(Body(item)) == if item.KeepAlive? then None else Some(item.data)
  {
    match item
    case KeepAlive =>
      PlainHasNoBreak(Body(item));
      SingleLine(Body(item));
    case Backlog(data) =>
      PlainConcat("data: ", data);
      PlainHasNoBreak(Body(item));
      SingleLine(Body(item));
      DataLine(data);
    case Live(revision, data) =>
      LiveReads(revision, data);
  }

  lemma DecimalEndsPlain(n: nat)
    ensures Decimal(n) != "" && Decimal(n)[|Decimal(n)| - 1] != '\r'
  {
  }

  lemma LiveReads(revision: nat, data: string)
    requires NoNewline(data)
    ensures var body := Body(Live(revision, data));
            NoBreak(body) && body != "" && body[|body| - 1] != NL && FrameData(body) == Some(data)
  {
    var id, event, last := "id: " + Decimal(revision), "event: auth", "data: " + data;
    DecimalIsPlain(revision);
    DecimalEndsPlain(revision);
    PlainConcat("id: ", Decimal(revision));
    PlainConcat("data: ", data);
    PlainHasNoBreak(last);
    JoinHasNoBreak(event, last);
    JoinHasNoBreak(id, event + [NL] + last);
    DataLine(data);
    SingleLine(last);
    SkipLine(event, last);
    assert id[|id| - 1] == Decimal(revision)[|Decimal(revision)| - 1];
    SkipLine(id, event + [NL] + last);
  }

  /** The first blank line after an item is its own. */
  lemma PrintedBreak(item: Item, rest: string)
    requires Printable(item)
    ensures var s, n := Print(item) + rest, |Body(item)|;
            FindBreak(s, 0) == Some(n) && n + 2 <= |s| && s[..n] == Body(item) && s[n + 2..] == rest
  {
    var body := Body(item);
    var s := Print(item) + rest;
    BodyReads(item);
    assert BreakAt(s, |body|);
    forall k | 0 <= k < |body| ensures !BreakAt(s, k) {
      assert !BreakAt(body, k);
      assert s[k] == body[k];
      assert k + 1 < |body| ==> s[k + 1] == body[k + 1];
    }
    FirstBreak(s, |body|);
  }

  lemma PrintedDrains(item: Item, rest: string)
    requires Printable(item)
    ensures Drain(Print(item) + rest) == Then(if item.KeepAlive? then [] else [item.data], Drain(rest))
  {
    PrintedBreak(item, rest);
    BodyReads(item);
  }

  lemma {:induction false} PrintAllDrains(items: seq<Item>)
    requires AllPrintable(items)
    ensures Drain(PrintAll(items)) == Outcome(Payloads(items), "")
    decreases |items|
  {
    if items != [] {
      PrintedDrains(items[0], PrintAll(items[1..]));
      PrintAllDrains(items[1..]);
    }
  }

  /** Every printed sequence of events and keepalives, cut into chunks anywhere, yields
      exactly the event payloads, in order, and nothing is left over. */
  lemma StreamRoundTrip(items: seq<Item>, chunks: seq<string>)
    requires AllPrintable(items)
    requires Concat(chunks) == PrintAll(items)
    ensures Feed("", chunks) == Outcome(Payloads(items), "")
  {
    ChunkingIsInvisible("", chunks);
    assert "" + Concat(chunks) == PrintAll(items);
    PrintAllDrains(items);
  }

  // ---------- handler to reader ----------

  lemma {:induction false} PayloadsConcat(a: seq<Item>, b: seq<Item>)
    ensures Payloads(a + b) == Payloads(a) + Payloads(b)
  {
    if a == [] {
      assert a + b == b;
    } else {
      assert (a + b)[1..] == a[1..] + b;
      PayloadsConcat(a[1..], b);
    }
  }

  lemma {:induction false} BacklogPayloads(backlog: seq<string>)
    ensures Payloads(BacklogItems(backlog)) == backlog
  {
    if backlog != [] {
      assert BacklogItems(backlog)[1..] == BacklogItems(backlog[1..]);
      BacklogPayloads(backlog[1..]);
    }
  }

  lemma {:induction false} LivePayloads(wakes: seq<Wake>)
    requires forall i :: 0 <= i < |wakes| && wakes[i].Ready? ==> NoNewline(wakes[i].data)
    ensures Payloads(LiveItems(wakes)) == ReadyData(wakes)
    ensures forall i :: 0 <= i < |LiveItems(wakes)| ==> Printable(LiveItems(wakes)[i])
  {
    if wakes != [] && !wakes[0].Closed? {
      LivePayloads(wakes[1..]);
      assert LiveItems(wakes)[1..] == LiveItems(wakes[1..]);
    }
  }

  lemma CleanIsPrintable(backlog: seq<string>, wakes: seq<Wake>)
    requires Clean(backlog, wakes)
    ensures AllPrintable(BacklogItems(backlog) + LiveItems(wakes))
  {
    LivePayloads(wakes);
  }

  /** What the handler prints for a backlog and its wakes, cut anywhere, is read as the backlog followed by the
      data of the events before the stream ended. */
  lemma HandlerToReader(backlog: seq<string>, wakes: seq<Wake>, chunks: seq<string>)
    requires Clean(backlog, wakes) && Concat(chunks) == PrintAll(BacklogItems(backlog) + LiveItems(wakes))
    ensures Feed("", chunks) == Outcome(backlog + ReadyData(wakes), "")
  {
    CleanIsPrintable(backlog, wakes);
    StreamRoundTrip(BacklogItems(backlog) + LiveItems(wakes), chunks);
    PayloadsConcat(BacklogItems(backlog), LiveItems(wakes));
    BacklogPayloads(backlog);
    LivePayloads(wakes);
  }

  // ---------- lines ----------

  /** The lines of a frame. */
  function Lines(frame: string): seq<string>
    decreases |frame|
  {
    match FindNewline(frame, 0)
    case None => [frame]
    case Some(i) => [frame[..i]] + Lines(frame[i + 1..])
  }

  lemma LinesSplit(line: string, rest: string)
    requires NoNewline(line)
    ensures Lines(line + [NL] + rest) == [line] + Lines(rest)
  {
    var s := line + [NL] + rest;
    assert s[|line|] == NL;
    assert forall i :: 0 <= i < |line| ==> s[i] == line[i];
    assert FindNewline(s, 0) == Some(|line|);
    assert s[..|line|] == line && s[|line| + 1..] == rest;
  }

  lemma OneLine(line: string)
    requires NoNewline(line)
    ensures Lines(line) == [line]
  {
  }

  lemma ThreeLines(a: string, b: string, c: string)
    requires NoNewline(a) && NoNewline(b) && NoNewline(c)
    ensures Lines(a + [NL] + (b + [NL] + c)) == [a, b, c]
  {
    LinesSplit(a, b + [NL] + c);
    LinesSplit(b, c);
    OneLine(c);
  }

  /** A live frame has three lines: its id, the event name and the data. */
  lemma LiveLines(revision: nat, data: string)
    requires NoNewline(data)
    ensures Lines(Body(Live(revision, data))) == ["id: " + Decimal(revision), "event: auth", "data: " + data]
  {
    DecimalIsPlain(revision);
    PlainConcat("id: ", Decimal(revision));
    PlainConcat("data: ", data);
    ThreeLines("id: " + Decimal(revision), "event: auth", "data: " + data);
  }

  /** A backlog frame has one line, the data; a keepalive is one comment. */
  lemma OtherLines(data: string)
    requires NoNewline(data)
    ensures Lines(Body(Backlog(data))) == ["data: " + data] && Lines(Body(KeepAlive)) == [": keepalive"]
  {
    PlainConcat("data: ", data);
    OneLine("data: " + data);
    OneLine(": keepalive");
  }

  // ---------- ids ----------

  function DigitValue(c: char): nat {
    if '0' <= c <= '9' then c as int - '0' as int else 0
  }

  function Number(s: string): nat {
    if s == "" then 0 else 10 * Number(s[..|s| - 1]) + DigitValue(s[|s| - 1])
  }

  lemma {:induction false} NumberOfDecimal(n: nat)
    ensures Number(Decimal(n)) == n
    decreases n
  {
    var s := Decimal(n);
    assert DigitValue(s[|s| - 1]) == n % 10;
    if n >= 10 {
      NumberOfDecimal(n / 10);
      assert s[..|s| - 1] == Decimal(n / 10);
    }
  }

  /** The number on the "id: " line that starts a frame. */
  function FrameId(frame: string): Option<nat> {
    var end := FindNewline(frame, 0);
    if "id: " <= frame && end.Some? && end.value >= 4 then Some(Number(frame[4..end.value])) else None
  }

  /** The ids of the complete frames of a text, in order. */
  function FrameIds(text: string): seq<Option<nat>>
    decreases |text|
  {
    match FindBreak(text, 0)
    case None => []
    case Some(i) => [FrameId(text[..i])] + FrameIds(text[i + 2..])
  }

  lemma LiveId(revision: nat, data: string)
    ensures FrameId(Body(Live(revision, data))) == Some(revision)
  {
    var id, more := "id: " + Decimal(revision), "event: auth" + [NL] + ("data: " + data);
    var body := id + [NL] + more;
    DecimalIsPlain(revision);
    PlainConcat("id: ", Decimal(revision));
    assert body[|id|] == NL;
    assert forall i :: 0 <= i < |id| ==> body[i] == id[i];
    assert FindNewline(body, 0) == Some(|id|);
    assert body[4..|id|] == Decimal(revision);
    assert body[..4] == "id: ";
    NumberOfDecimal(revision);
  }

  lemma ItemId(item: Item)
    ensures FrameId(Body(item)) == if item.Live? then Some(item.revision) else None
  {
    match item
    case Live(revision, data) => LiveId(revision, data);
    case Backlog(data) => assert Body(item)[0] == 'd' && "id: "[0] == 'i';
    case KeepAlive => assert Body(item)[0] == ':' && "id: "[0] == 'i';
  }

  function IdOf(item: Item): Option<nat> {
    if item.Live? then Some(item.revision) else None
  }

  function ItemIds(items: seq<Item>): seq<Option<nat>> {
    if items == [] then [] else [IdOf(items[0])] + ItemIds(items[1..])
  }

  lemma PrintedIds(item: Item, rest: string)
    requires Printable(item)
    ensures FrameIds(Print(item) + rest) == [IdOf(item)] + FrameIds(rest)
  {
    PrintedBreak(item, rest);
    ItemId(item);
  }

  lemma {:induction false} PrintAllIds(items: seq<Item>)
    requires AllPrintable(items)
    ensures FrameIds(PrintAll(items)) == ItemIds(items)
    decreases |items|
  {
    if items != [] {
      PrintedIds(items[0], PrintAll(items[1..]));
      PrintAllIds(items[1..]);
    }
  }

  lemma {:induction false} LiveIds(wakes: seq<Wake>)
    ensures ItemIds(LiveItems(wakes)) == WakeIds(wakes)
  {
    if wakes != [] && !wakes[0].Closed? {
      LiveIds(wakes[1..]);
      assert LiveItems(wakes)[1..] == LiveItems(wakes[1..]);
    }
  }

  lemma {:induction false} BacklogIds(backlog: seq<string>, live: seq<Item>)
    ensures ItemIds(BacklogItems(backlog) + live) == NoIds(|backlog|) + ItemIds(live)
  {
    if backlog == [] {
      assert BacklogItems(backlog) + live == live;
    } else {
      BacklogIds(backlog[1..], live);
      assert (BacklogItems(backlog) + live)[1..] == BacklogItems(backlog[1..]) + live;
      assert NoIds(|backlog|) == [None] + NoIds(|backlog| - 1);
    }
  }

  /** Every live event's frame carries its own revision as id; backlog and keepalive frames carry none. */
  lemma HandlerIds(backlog: seq<string>, wakes: seq<Wake>)
    requires Clean(backlog, wakes)
    ensures FrameIds(PrintAll(BacklogItems(backlog) + LiveItems(wakes))) == NoIds(|backlog|) + WakeIds(wakes)
  {
    var items := BacklogItems(backlog) + LiveItems(wakes);
    CleanIsPrintable(backlog, wakes);
    PrintAllIds(items);
    BacklogIds(backlog, LiveItems(wakes));
    LiveIds(wakes);
  }
}
