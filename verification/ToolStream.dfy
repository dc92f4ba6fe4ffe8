/** The chat stream of an LLM provider: text arrives in pieces, and tool calls arrive as fragments
    that name the call they belong to by index. */
module ToolStream {
  import opened Wrappers
  import opened Text
  import opened Seqs
  import opened AgentConversation

  datatype Fragment = Fragment(index: int, id: string, name: string, arguments: string)

  datatype Delta = Delta(content: string, fragments: seq<Fragment>)

  /** How one payload decodes: None when it is malformed, otherwise the deltas of its choices. */
  type Decoder = string -> Option<seq<Delta>>

  // ----- what the lines hold -----

  const DATA := "data:"
  const DONE := "[DONE]"

  function Payload(line: string): string {
    if HasPrefix(line, DATA) then TrimSpace(line[|DATA|..]) else ""
  }

  predicate Ends(line: string) { Payload(line) == DONE }

  /** The index of the first line that ends the stream, or the number of lines. */
  function Stop(lines: seq<string>): (n: nat)
    ensures n <= |lines| && (n < |lines| ==> Ends(lines[n]))
    ensures forall i | 0 <= i < n :: !Ends(lines[i])
  {
    if lines == [] || Ends(lines[0]) then 0 else 1 + Stop(lines[1..])
  }

  /** The delta on a line, if it has one. */
  function Carried(line: string, decode: Decoder): seq<Delta> {
    if Payload(line) == "" then []
    else match decode(Payload(line))
      case None => []
      case Some(choices) => if choices == [] then [] else [choices[0]]
  }

  function DeltasOf(lines: seq<string>, decode: Decoder): seq<Delta> {
    if lines == [] then [] else DeltasOf(lines[..|lines| - 1], decode) + Carried(lines[|lines| - 1], decode)
  }

  function Deltas(lines: seq<string>, decode: Decoder): seq<Delta> {
    DeltasOf(lines[..Stop(lines)], decode)
  }

  lemma DeltasSnoc(lines: seq<string>, i: nat, decode: Decoder)
    requires i < |lines|
    ensures DeltasOf(lines[..i + 1], decode) == DeltasOf(lines[..i], decode) + Carried(lines[i], decode)
  {
    assert lines[..i + 1][..i] == lines[..i];
  }

  function Contents(ds: seq<Delta>): seq<string> {
    if ds == [] then []
    else Contents(ds[..|ds| - 1]) + (if ds[|ds| - 1].content == "" then [] else [ds[|ds| - 1].content])
  }

  function Fragments(ds: seq<Delta>): seq<Fragment> {
    if ds == [] then [] else Fragments(ds[..|ds| - 1]) + ds[|ds| - 1].fragments
  }

  // ----- what the fragments mean, index by index -----

  /** The indexes in the order of their first appearance. */
  function Order(fs: seq<Fragment>): seq<int> {
    if fs == [] then []
    else
      var front := Order(fs[..|fs| - 1]);
      if fs[|fs| - 1].index in front then front else front + [fs[|fs| - 1].index]
  }

  function Of(fs: seq<Fragment>, i: int): seq<Fragment> {
    if fs == [] then []
    else Of(fs[..|fs| - 1], i) + (if fs[|fs| - 1].index == i then [fs[|fs| - 1]] else [])
  }

  function LastId(fs: seq<Fragment>): string {
    if fs == [] then "" else if fs[|fs| - 1].id != "" then fs[|fs| - 1].id else LastId(fs[..|fs| - 1])
  }

  function LastName(fs: seq<Fragment>): string {
    if fs == [] then "" else if fs[|fs| - 1].name != "" then fs[|fs| - 1].name else LastName(fs[..|fs| - 1])
  }

  function Arguments(fs: seq<Fragment>): string {
    if fs == [] then "" else Arguments(fs[..|fs| - 1]) + fs[|fs| - 1].arguments
  }

  /** The call that the fragments of one index amount to. */
  function CallOf(fs: seq<Fragment>): ToolCall { ToolCall(LastId(fs), LastName(fs), Arguments(fs)) }

  /** The named calls among some indexes. */
  function Named(fs: seq<Fragment>, order: seq<int>): seq<ToolCall> {
    if order == [] then []
    else
      var call := CallOf(Of(fs, order[|order| - 1]));
      Named(fs, order[..|order| - 1]) + (if call.name == "" then [] else [call])
  }

  function Assembled(fs: seq<Fragment>): seq<ToolCall> { Named(fs, Order(fs)) }

  function Parsed(lines: seq<string>, decode: Decoder): Message {
    var ds := Deltas(lines, decode);
    Reply(Flatten(Contents(ds)), Assembled(Fragments(ds)))
  }

  // ----- the parser -----

  ghost predicate Accumulates(calls: map<int, ToolCall>, order: seq<int>, fs: seq<Fragment>) {
    && order == Order(fs)
    && (forall i :: i in calls <==> i in order)
    && (forall i | i in calls :: calls[i] == CallOf(Of(fs, i)))
  }

  lemma AppearsInOrder(fs: seq<Fragment>, i: int)
    ensures i in Order(fs) <==> Of(fs, i) != []
  {
    if fs != [] { AppearsInOrder(fs[..|fs| - 1], i); }
  }

  /** One more fragment folded into what is known of its call. */
  function Folded(a: ToolCall, f: Fragment): ToolCall {
    ToolCall(if f.id != "" then f.id else a.id, if f.name != "" then f.name else a.name, a.arguments + f.arguments)
  }

  lemma CallSnoc(fs: seq<Fragment>, f: Fragment, i: int)
    ensures CallOf(Of(fs + [f], i)) == if f.index == i then Folded(CallOf(Of(fs, i)), f) else CallOf(Of(fs, i))
  {
    assert (fs + [f])[..|fs|] == fs;
    FoldSnoc(Of(fs, i), f);
    if f.index != i { assert Of(fs + [f], i) == Of(fs, i); }
  }

  lemma FoldSnoc(gs: seq<Fragment>, f: Fragment)
    ensures CallOf(gs + [f]) == Folded(CallOf(gs), f)
  {
    assert (gs + [f])[..|gs|] == gs && (gs + [f])[|gs|] == f;
  }

  lemma OrderSnoc(fs: seq<Fragment>, f: Fragment)
    ensures Order(fs + [f]) == if f.index in Order(fs) then Order(fs) else Order(fs) + [f.index]
  {
    assert (fs + [f])[..|fs|] == fs;
  }

  lemma KeepsAccumulating(calls: map<int, ToolCall>, order: seq<int>, fs: seq<Fragment>, f: Fragment,
                          calls': map<int, ToolCall>, order': seq<int>)
    requires Accumulates(calls, order, fs)
    requires order' == if f.index in calls then order else order + [f.index]
    requires calls' == calls[f.index := Folded(if f.index in calls then calls[f.index] else ToolCall("", "", ""), f)]
    ensures Accumulates(calls', order', fs + [f])
  {
    OrderSnoc(fs, f);
    AppearsInOrder(fs, f.index);
    assert f.index !in calls ==> CallOf(Of(fs, f.index)) == ToolCall("", "", "");
    forall i | i in calls' ensures calls'[i] == CallOf(Of(fs + [f], i)) { CallSnoc(fs, f, i); }
  }

  method Absorb(known: ToolCall, f: Fragment) returns (a: ToolCall)
    ensures a == Folded(known, f)
  {
    a := known;
    if f.id != "" { a := a.(id := f.id); }
    if f.name != "" { a := a.(name := f.name); }
    if f.arguments != "" { a := a.(arguments := a.arguments + f.arguments); }
  }

  /** Folds the fragments of one chunk into the calls collected so far. */
  method Collect(calls: map<int, ToolCall>, order: seq<int>, fragments: seq<Fragment>, ghost fs: seq<Fragment>)
    returns (calls': map<int, ToolCall>, order': seq<int>)
    requires Accumulates(calls, order, fs)
    ensures Accumulates(calls', order', fs + fragments)
  {
    calls', order' := calls, order;
    assert fs + fragments[..0] == fs;
    for i := 0 to |fragments|
      invariant Accumulates(calls', order', fs + fragments[..i])
    {
      var f := fragments[i];
      ghost var was, wasOrder := calls', order';
      var a := ToolCall("", "", "");
      if f.index in calls' { a := calls'[f.index]; } else { order' := order' + [f.index]; }
      a := Absorb(a, f);
      calls' := calls'[f.index := a];
      KeepsAccumulating(was, wasOrder, fs + fragments[..i], f, calls', order');
      OneMore(fs, fragments, i);
    }
    assert fragments[..|fragments|] == fragments;
  }

  lemma NamedStep(fs: seq<Fragment>, order: seq<int>, i: nat)
    requires i < |order|
    ensures var call := CallOf(Of(fs, order[i]));
      Named(fs, order[..i + 1]) == if call.name == "" then Named(fs, order[..i]) else Named(fs, order[..i]) + [call]
  {
    assert order[..i + 1][..i] == order[..i];
  }

  /** The calls that got a name. */
  method Finish(calls: map<int, ToolCall>, order: seq<int>, ghost fs: seq<Fragment>) returns (named: seq<ToolCall>)
    requires Accumulates(calls, order, fs)
    ensures named == Assembled(fs)
  {
    named := [];
    for i := 0 to |order|
      invariant named == Named(fs, order[..i])
    {
      var index := order[i];
      assert index in order;
      NamedStep(fs, order, i);
      var a := calls[index];
      if a.name != "" { named := named + [a]; }
    }
    assert order[..|order|] == order;
  }

  /** The variables of the scan. */
  datatype Progress = Progress(content: string, emitted: seq<string>, calls: map<int, ToolCall>, order: seq<int>)

  ghost predicate Scanned(s: Progress, ds: seq<Delta>) {
    s.emitted == Contents(ds) && s.content == Flatten(s.emitted) && Accumulates(s.calls, s.order, Fragments(ds))
  }

  lemma ContentsSnoc(ds: seq<Delta>, delta: Delta)
    ensures Contents(ds + [delta]) == if delta.content == "" then Contents(ds) else Contents(ds) + [delta.content]
    ensures Fragments(ds + [delta]) == Fragments(ds) + delta.fragments
  {
    assert (ds + [delta])[..|ds|] == ds;
  }

  /** One chunk: its text is shown and its fragments are collected. */
  method TakeDelta(s: Progress, delta: Delta, ghost ds: seq<Delta>) returns (t: Progress)
    requires Scanned(s, ds)
    ensures Scanned(t, ds + [delta])
  {
    ContentsSnoc(ds, delta);
    t := s;
    if delta.content != "" {
      FlattenSnoc(s.emitted, delta.content);
      t := t.(content := s.content + delta.content, emitted := s.emitted + [delta.content]);
    }
    var calls, order := Collect(s.calls, s.order, delta.fragments, Fragments(ds));
    t := t.(calls := calls, order := order);
  }

  /** One line that does not end the stream. */
  method TakeLine(s: Progress, line: string, decode: Decoder, ghost ds: seq<Delta>) returns (t: Progress)
    requires Scanned(s, ds)
    ensures Scanned(t, ds + Carried(line, decode))
  {
    assert ds + [] == ds;
    var data := Payload(line);
    if data == "" { return s; }
    var chunk := decode(data);
    if chunk.None? || chunk.value == [] { return s; }
    t := TakeDelta(s, chunk.value[0], ds);
  }

  /** `fault` is what the line scanner reports once reading is over. `emitted` is what the caller was
      shown while it went on. */
  method ParseStream(lines: seq<string>, decode: Decoder, fault: bool)
    returns (r: Result<Message, string>, emitted: seq<string>)
    ensures emitted == Contents(Deltas(lines, decode))
    ensures r.Err? <==> fault
    ensures r.Ok? ==> r.value == Parsed(lines, decode) && r.value.content == Flatten(emitted)
  {
    var s := Progress("", [], map[], []);
    var i := 0;
    while i < |lines| && !Ends(lines[i])
      invariant i <= Stop(lines)
      invariant Scanned(s, DeltasOf(lines[..i], decode))
    {
      DeltasSnoc(lines, i, decode);
      s := TakeLine(s, lines[i], decode, DeltasOf(lines[..i], decode));
      i := i + 1;
    }
    assert i == Stop(lines);
    emitted := s.emitted;
    if fault { return Err("read LLM stream"), emitted; }
    var named := Finish(s.calls, s.order, Fragments(DeltasOf(lines[..i], decode)));
    return Ok(Reply(s.content, named)), emitted;
  }

  // ----- fragments of different calls do not disturb each other -----

  lemma OfSnoc(fs: seq<Fragment>, f: Fragment, i: int)
    ensures Of(fs + [f], i) == Of(fs, i) + (if f.index == i then [f] else [])
  {
    assert (fs + [f])[..|fs|] == fs;
  }

  lemma {:induction false} OfAppend(a: seq<Fragment>, b: seq<Fragment>, i: int)
    ensures Of(a + b, i) == Of(a, i) + Of(b, i)
  {
    if b == [] {
      assert a + b == a;
    } else {
      var front, last := b[..|b| - 1], b[|b| - 1];
      FrontLast(b);
      Assoc(a, front, [last]);
      OfAppend(a, front, i);
      OfSnoc(a + front, last, i);
      OfSnoc(front, last, i);
    }
  }

  lemma {:induction false} OrderAppend(a: seq<Fragment>, a': seq<Fragment>, b: seq<Fragment>)
    ensures Order(a) <= Order(a + b)
    ensures Order(a) == Order(a') ==> Order(a + b) == Order(a' + b)
  {
    if b == [] {
      assert a + b == a && a' + b == a';
    } else {
      var front := b[..|b| - 1];
      OrderAppend(a, a', front);
      assert (a + b)[..|a + b| - 1] == a + front && (a' + b)[..|a' + b| - 1] == a' + front;
    }
  }

  /** Only the order of first appearances and what each index received count: how the indexes
      interleave, and into how many fragments each call was cut, does not. */
  lemma SameCalls(fs: seq<Fragment>, gs: seq<Fragment>)
    requires Order(fs) == Order(gs)
    requires forall i | i in Order(fs) :: CallOf(Of(fs, i)) == CallOf(Of(gs, i))
    ensures Assembled(fs) == Assembled(gs)
  {
    SameNamed(fs, gs, Order(fs));
  }

  lemma {:induction false} SameNamed(fs: seq<Fragment>, gs: seq<Fragment>, order: seq<int>)
    requires forall i | i in order :: CallOf(Of(fs, i)) == CallOf(Of(gs, i))
    ensures Named(fs, order) == Named(gs, order)
  {
    if order != [] {
      assert order[|order| - 1] in order;
      SameNamed(fs, gs, order[..|order| - 1]);
    }
  }

  lemma OrderOfTwo(pre: seq<Fragment>, a: Fragment, b: Fragment)
    requires a.index != b.index
    ensures Order(pre + [a, b])
      == Order(pre) + (if a.index in Order(pre) then [] else [a.index])
      + (if b.index in Order(pre) then [] else [b.index])
  {
    OrderSnoc(pre, a);
    OrderSnoc(pre + [a], b);
    assert pre + [a] + [b] == pre + [a, b];
  }

  lemma SwapOrder(pre: seq<Fragment>, a: Fragment, b: Fragment)
    requires a.index != b.index
    ensures Order(pre + [a, b]) == Order(pre + [b, a]) <==> a.index in Order(pre) || b.index in Order(pre)
  {
    OrderOfTwo(pre, a, b);
    OrderOfTwo(pre, b, a);
    if a.index !in Order(pre) && b.index !in Order(pre) {
      assert Order(pre + [a, b])[|Order(pre)|] == a.index;
      assert Order(pre + [b, a])[|Order(pre)|] == b.index;
    }
  }

  lemma OfOne(a: Fragment, i: int)
    ensures Of([a], i) == if a.index == i then [a] else []
  {
    assert [a][..0] == [];
  }

  /** The fragments of one index, with two in the middle of different indexes, in either order. */
  lemma OfSwapped(pre: seq<Fragment>, a: Fragment, b: Fragment, post: seq<Fragment>, i: int)
    requires a.index != b.index
    ensures Of(pre + [a, b] + post, i) == Of(pre + [b, a] + post, i)
  {
    OfMiddle(pre, a, b, post, i);
    OfMiddle(pre, b, a, post, i);
    OfOne(a, i);
    OfOne(b, i);
  }

  lemma OfMiddle(pre: seq<Fragment>, a: Fragment, b: Fragment, post: seq<Fragment>, i: int)
    ensures Of(pre + [a, b] + post, i) == Of(pre, i) + (Of([a], i) + Of([b], i)) + Of(post, i)
  {
    OfAppend(pre + [a, b], post, i);
    OfAppend(pre, [a, b], i);
    OfAppend([a], [b], i);
    assert [a] + [b] == [a, b];
  }

  /** Two neighbouring fragments of different calls may change places once either call has begun. */
  lemma SwapKeepsCalls(pre: seq<Fragment>, a: Fragment, b: Fragment, post: seq<Fragment>)
    requires a.index != b.index && (a.index in Order(pre) || b.index in Order(pre))
    ensures Assembled(pre + [a, b] + post) == Assembled(pre + [b, a] + post)
  {
    SwapOrder(pre, a, b);
    OrderAppend(pre + [a, b], pre + [b, a], post);
    var fs, gs := pre + [a, b] + post, pre + [b, a] + post;
    forall i | i in Order(fs) ensures CallOf(Of(fs, i)) == CallOf(Of(gs, i)) { OfSwapped(pre, a, b, post, i); }
    SameCalls(fs, gs);
  }

  // ----- whatever was cut into fragments comes back -----

  /** Fragments a provider may send for one call: the first brings id and name, later ones may repeat
      them or leave them out, and the pieces of the arguments come in order. */
  ghost predicate Fragmented(fs: seq<Fragment>, call: ToolCall) {
    && fs != [] && fs[0].id == call.id && fs[0].name == call.name
    && (forall k | 0 <= k < |fs| :: fs[k].id == "" || fs[k].id == call.id)
    && (forall k | 0 <= k < |fs| :: fs[k].name == "" || fs[k].name == call.name)
    && Arguments(fs) == call.arguments
  }

  lemma {:induction false} LastIdIs(fs: seq<Fragment>, id: string)
    requires fs != [] && fs[0].id == id && forall k | 0 <= k < |fs| :: fs[k].id == "" || fs[k].id == id
    ensures LastId(fs) == id
  {
    if |fs| > 1 { LastIdIs(fs[..|fs| - 1], id); }
  }

  lemma {:induction false} LastNameIs(fs: seq<Fragment>, name: string)
    requires fs != [] && fs[0].name == name && forall k | 0 <= k < |fs| :: fs[k].name == "" || fs[k].name == name
    ensures LastName(fs) == name
  {
    if |fs| > 1 { LastNameIs(fs[..|fs| - 1], name); }
  }

  lemma WholeAgain(fs: seq<Fragment>, call: ToolCall)
    requires Fragmented(fs, call)
    ensures CallOf(fs) == call
  {
    LastIdIs(fs, call.id);
    LastNameIs(fs, call.name);
  }

  function NamedOnly(calls: seq<ToolCall>): seq<ToolCall> {
    if calls == [] then []
    else NamedOnly(calls[..|calls| - 1]) + (if calls[|calls| - 1].name == "" then [] else [calls[|calls| - 1]])
  }

  /** However the calls at `order` were cut up and interleaved, the named ones come back whole, in order. */
  lemma FragmentsRoundTrip(fs: seq<Fragment>, order: seq<int>, calls: seq<ToolCall>)
    requires Order(fs) == order && |calls| == |order|
    requires forall k | 0 <= k < |order| :: Fragmented(Of(fs, order[k]), calls[k])
    ensures Assembled(fs) == NamedOnly(calls)
  {
    NamedRoundTrip(fs, order, calls);
  }

  lemma {:induction false} NamedRoundTrip(fs: seq<Fragment>, order: seq<int>, calls: seq<ToolCall>)
    requires |calls| == |order| && forall k | 0 <= k < |order| :: Fragmented(Of(fs, order[k]), calls[k])
    ensures Named(fs, order) == NamedOnly(calls)
  {
    if order != [] {
      var n := |order| - 1;
      NamedRoundTrip(fs, order[..n], calls[..n]);
      WholeAgain(Of(fs, order[n]), calls[n]);
    }
  }

  // ----- what is not a chunk does not matter -----

  lemma DeltasOfSnoc(lines: seq<string>, line: string, decode: Decoder)
    ensures DeltasOf(lines + [line], decode) == DeltasOf(lines, decode) + Carried(line, decode)
  {
    assert (lines + [line])[..|lines|] == lines;
  }

  lemma {:induction false} DeltasOfCons(line: string, rest: seq<string>, decode: Decoder)
    ensures DeltasOf([line] + rest, decode) == Carried(line, decode) + DeltasOf(rest, decode)
  {
    if rest == [] {
      DeltasOfSnoc([], line, decode);
      assert [line] + rest == [] + [line];
    } else {
      var front, last := rest[..|rest| - 1], rest[|rest| - 1];
      FrontLast(rest);
      Assoc([line], front, [last]);
      DeltasOfCons(line, front, decode);
      DeltasOfSnoc([line] + front, last, decode);
      DeltasOfSnoc(front, last, decode);
      Assoc(Carried(line, decode), DeltasOf(front, decode), Carried(last, decode));
    }
  }

  lemma StopCons(line: string, rest: seq<string>)
    ensures Stop([line] + rest) == if Ends(line) then 0 else 1 + Stop(rest)
  {
    assert ([line] + rest)[1..] == rest;
  }

  lemma DeltasCons(line: string, rest: seq<string>, decode: Decoder)
    ensures Deltas([line] + rest, decode) == if Ends(line) then [] else Carried(line, decode) + Deltas(rest, decode)
  {
    StopCons(line, rest);
    if !Ends(line) {
      ConsPrefix(line, rest, Stop(rest));
      DeltasOfCons(line, rest[..Stop(rest)], decode);
    }
  }

  lemma {:induction false} SameTail(pre: seq<string>, a: seq<string>, b: seq<string>, decode: Decoder)
    requires Deltas(a, decode) == Deltas(b, decode)
    ensures Deltas(pre + a, decode) == Deltas(pre + b, decode)
  {
    if pre == [] {
      assert pre + a == a && pre + b == b;
    } else {
      ConsAppend(pre, a);
      ConsAppend(pre, b);
      var x, y := pre[1..] + a, pre[1..] + b;
      SameTail(pre[1..], a, b, decode);
      DeltasCons(pre[0], x, decode);
      DeltasCons(pre[0], y, decode);
    }
  }

  /** Comments, keep-alives and malformed frames may come anywhere. */
  lemma NoiseIgnored(pre: seq<string>, noise: string, post: seq<string>, decode: Decoder)
    requires !Ends(noise) && Carried(noise, decode) == []
    ensures Parsed(pre + ([noise] + post), decode) == Parsed(pre + post, decode)
  {
    DeltasCons(noise, post, decode);
    SameTail(pre, [noise] + post, post, decode);
  }

  /** Nothing after the end mark is looked at. */
  lemma EndIsFinal(pre: seq<string>, end: string, more: seq<string>, other: seq<string>, decode: Decoder)
    requires Ends(end)
    ensures Parsed(pre + ([end] + more), decode) == Parsed(pre + ([end] + other), decode)
  {
    DeltasCons(end, more, decode);
    DeltasCons(end, other, decode);
    SameTail(pre, [end] + more, [end] + other, decode);
  }

  // ----- which lines are read, in plain terms -----

  lemma EndsIs(line: string)
    ensures Ends(line) <==> "data:" <= line && TrimSpace(line[5..]) == "[DONE]"
  {
    assert |"data:"| == 5 && "[DONE]" != "";
  }

  /** Lines that carry no data: without the prefix, or with only white space behind it. */
  predicate NoData(line: string) { !("data:" <= line) || forall c | c in line[5..] :: IsSpace(c) }

  lemma NoDataIsNoise(line: string, decode: Decoder)
    requires NoData(line)
    ensures !Ends(line) && Carried(line, decode) == []
  {
    assert |"data:"| == 5 && "[DONE]" != "";
    if "data:" <= line { TrimsToNothing(line[5..]); }
  }

  /** Blank lines, comments and other fields of the event stream may come anywhere. */
  lemma NoDataIgnored(pre: seq<string>, line: string, post: seq<string>, decode: Decoder)
    requires NoData(line)
    ensures Parsed(pre + ([line] + post), decode) == Parsed(pre + post, decode)
  {
    NoDataIsNoise(line, decode);
    NoiseIgnored(pre, line, post, decode);
  }

  /** So may chunks that do not decode, or decode to no choice. */
  lemma MalformedIgnored(pre: seq<string>, line: string, post: seq<string>, decode: Decoder)
    requires "data:" <= line && TrimSpace(line[5..]) != "[DONE]"
    requires decode(TrimSpace(line[5..])) == None || decode(TrimSpace(line[5..])) == Some([])
    ensures Parsed(pre + ([line] + post), decode) == Parsed(pre + post, decode)
  {
    EndsIs(line);
    NoiseIgnored(pre, line, post, decode);
  }

  // ----- framing -----

  function DataLine(p: string): string { "data: " + p }

  /** The usual event stream: each payload on a data line with a blank line behind it, then the end mark. */
  function Framed(payloads: seq<string>): seq<string> {
    if payloads == [] then [DataLine("[DONE]"), ""] else [DataLine(payloads[0]), ""] + Framed(payloads[1..])
  }

  function FirstChoice(p: string, decode: Decoder): seq<Delta> {
    var choices := decode(p);
    if choices.Some? && choices.value != [] then [choices.value[0]] else []
  }

  function FirstChoices(payloads: seq<string>, decode: Decoder): seq<Delta> {
    if payloads == [] then [] else FirstChoice(payloads[0], decode) + FirstChoices(payloads[1..], decode)
  }

  predicate IsPayload(p: string) { p != "" && p != "[DONE]" && !IsSpace(p[0]) && !IsSpace(p[|p| - 1]) }

  lemma DataLineCarries(p: string, decode: Decoder)
    requires p != "" && Trimmed(p)
    ensures Payload(DataLine(p)) == p
    ensures Ends(DataLine(p)) <==> p == "[DONE]"
    ensures p != "[DONE]" ==> Carried(DataLine(p), decode) == FirstChoice(p, decode)
  {
    var line := DataLine(p);
    assert |"data:"| == 5 && line[..5] == "data:" && line[5..] == [' '] + p;
    TrimsLeadingSpace(p);
  }

  lemma EndMark(decode: Decoder)
    ensures Ends(DataLine("[DONE]"))
  {
    var mark := "[DONE]";
    assert mark[0] == '[' && mark[5] == ']';
    DataLineCarries(mark, decode);
  }

  lemma TwoLines(line: string, blank: string, rest: seq<string>, decode: Decoder)
    requires NoData(blank)
    ensures Deltas([line, blank] + rest, decode) == if Ends(line) then []
      else Carried(line, decode) + Deltas(rest, decode)
  {
    TwoFirst(line, blank, rest);
    OneBlank(blank, rest, decode);
    DeltasCons(line, [blank] + rest, decode);
  }

  lemma OneBlank(blank: string, rest: seq<string>, decode: Decoder)
    requires NoData(blank)
    ensures Deltas([blank] + rest, decode) == Deltas(rest, decode)
  {
    NoDataIsNoise(blank, decode);
    DeltasCons(blank, rest, decode);
  }

  /** Whatever follows, the chunks read off a framed stream are the first choices of its payloads, in order. */
  lemma {:induction false} FramingRoundTrip(payloads: seq<string>, more: seq<string>, decode: Decoder)
    requires forall p | p in payloads :: IsPayload(p)
    ensures Deltas(Framed(payloads) + more, decode) == FirstChoices(payloads, decode)
  {
    if payloads == [] {
      EndMark(decode);
      TwoLines(DataLine("[DONE]"), "", more, decode);
    } else {
      var line := DataLine(payloads[0]);
      assert IsPayload(payloads[0]);
      DataLineCarries(payloads[0], decode);
      FramingRoundTrip(payloads[1..], more, decode);
      TwoLines(line, "", Framed(payloads[1..]) + more, decode);
      Assoc([line, ""], Framed(payloads[1..]), more);
    }
  }

  // ----- what the fragments of one call mean, in plain terms -----

  lemma {:induction false} LastIdIsLast(fs: seq<Fragment>)
    ensures if LastId(fs) == "" then forall k | 0 <= k < |fs| :: fs[k].id == ""
      else exists k | 0 <= k < |fs| :: fs[k].id == LastId(fs) && forall j | k < j < |fs| :: fs[j].id == ""
  {
    if fs != [] {
      var n := |fs| - 1;
      LastIdIsLast(fs[..n]);
      if fs[n].id == "" && LastId(fs[..n]) != "" {
        var k :| 0 <= k < n && fs[..n][k].id == LastId(fs) && forall j | k < j < n :: fs[..n][j].id == "";
        assert fs[k].id == LastId(fs) && forall j | k < j < |fs| :: j < n ==> fs[j].id == fs[..n][j].id;
      }
    }
  }

  lemma {:induction false} LastNameIsLast(fs: seq<Fragment>)
    ensures if LastName(fs) == "" then forall k | 0 <= k < |fs| :: fs[k].name == ""
      else exists k | 0 <= k < |fs| :: fs[k].name == LastName(fs) && forall j | k < j < |fs| :: fs[j].name == ""
  {
    if fs != [] {
      var n := |fs| - 1;
      LastNameIsLast(fs[..n]);
      if fs[n].name == "" && LastName(fs[..n]) != "" {
        var k :| 0 <= k < n && fs[..n][k].name == LastName(fs) && forall j | k < j < n :: fs[..n][j].name == "";
        assert fs[k].name == LastName(fs) && forall j | k < j < |fs| :: j < n ==> fs[j].name == fs[..n][j].name;
      }
    }
  }

  lemma {:induction false} ArgumentsAreJoined(fs: seq<Fragment>)
    ensures Arguments(fs) == Flatten(seq(|fs|, k requires 0 <= k < |fs| => fs[k].arguments))
  {
    if fs != [] {
      var n := |fs| - 1;
      ArgumentsAreJoined(fs[..n]);
      var all := seq(|fs|, k requires 0 <= k < |fs| => fs[k].arguments);
      assert all[..n] == seq(n, k requires 0 <= k < n => fs[..n][k].arguments);
    }
  }

  /** The message's text is all the chunks' texts, empty ones included; empty ones are not shown. */
  lemma {:induction false} TextsAreJoined(ds: seq<Delta>)
    ensures Flatten(Contents(ds)) == Flatten(seq(|ds|, k requires 0 <= k < |ds| => ds[k].content))
    ensures forall c | c in Contents(ds) :: c != ""
  {
    if ds != [] {
      var n := |ds| - 1;
      TextsAreJoined(ds[..n]);
      var texts := seq(|ds|, k requires 0 <= k < |ds| => ds[k].content);
      assert texts[..n] == seq(n, k requires 0 <= k < n => ds[..n][k].content);
      assert Flatten(texts) == Flatten(texts[..n]) + ds[n].content;
      if ds[n].content == "" {
        assert Contents(ds) == Contents(ds[..n]);
      } else {
        FlattenSnoc(Contents(ds[..n]), ds[n].content);
      }
    }
  }

  lemma {:induction false} FragmentsAreJoined(ds: seq<Delta>)
    ensures Fragments(ds) == Flatten(seq(|ds|, k requires 0 <= k < |ds| => ds[k].fragments))
  {
    if ds != [] {
      var n := |ds| - 1;
      FragmentsAreJoined(ds[..n]);
      var parts := seq(|ds|, k requires 0 <= k < |ds| => ds[k].fragments);
      assert parts[..n] == seq(n, k requires 0 <= k < n => ds[..n][k].fragments);
    }
  }

  /** A call is placed when its index is seen for the first time. */
  lemma OrderOfFirsts(fs: seq<Fragment>, f: Fragment)
    ensures Order([]) == []
    ensures Order(fs + [f])
         == if exists k | 0 <= k < |fs| :: fs[k].index == f.index then Order(fs) else Order(fs) + [f.index]
  {
    OrderSnoc(fs, f);
    InOrder(fs, f.index);
  }

  lemma {:induction false} InOrder(fs: seq<Fragment>, i: int)
    ensures i in Order(fs) <==> exists k | 0 <= k < |fs| :: fs[k].index == i
  {
    if fs != [] {
      var n := |fs| - 1;
      InOrder(fs[..n], i);
      if k :| 0 <= k < |fs| && fs[k].index == i { assert k < n ==> fs[..n][k].index == i; }
    }
  }

  /** The calls of the message are those of the indexes seen, without the nameless. */
  lemma {:induction false} NamedExactly(fs: seq<Fragment>, order: seq<int>, call: ToolCall)
    ensures call in Named(fs, order) <==> call.name != "" && exists i | i in order :: CallOf(Of(fs, i)) == call
  {
    if order != [] {
      var n := |order| - 1;
      NamedExactly(fs, order[..n], call);
      if i :| i in order && CallOf(Of(fs, i)) == call { assert i in order[..n] || i == order[n]; }
      if i :| i in order[..n] && CallOf(Of(fs, i)) == call { assert i in order; }
      assert order[n] in order;
    }
  }

  /** The fragments of an index, all of them and in order: those with it stay, the others go. */
  lemma OfPlain(fs: seq<Fragment>, f: Fragment, i: int)
    ensures Of([], i) == [] && Of(fs + [f], i) == if f.index == i then Of(fs, i) + [f] else Of(fs, i)
  {
    OfSnoc(fs, f, i);
  }
}
