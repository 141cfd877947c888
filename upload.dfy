/** The upload handler: it checks the request headers against the limit,
    opens the sink each `data` part goes to, streams the part's chunks
    into it while the progress display counts them, and signals the server
    to shut down after a successful upload unless it is to keep running.

    The request body is a value: its parts in order, each with its chunks
    and the multipart error (if any) met while reading them, and the error
    (if any) met when asking for the next part after the last one. The file
    system and standard output are a `World` value the handler threads
    through; the ways they can fail are given as `Faults`. */
module Upload {
  import opened Base
  import opened Decimal
  import opened Args
  import Index
  import P = Progress

  type Status = nat

  const BAD_REQUEST: Status := 400
  const PAYLOAD_TOO_LARGE: Status := 413
  const INTERNAL_SERVER_ERROR: Status := 500

  // ---------------------------------------------------------------------
  // The request, the world and its faults
  // ---------------------------------------------------------------------

  /** The two headers the handler reads, as raw bytes when present. */
  datatype Headers = Headers(contentLength: Option<seq<byte>>, contentType: Option<seq<byte>>)

  /** A chunk of a part and the clock reading (ms) when it arrived. */
  datatype Chunk = Chunk(data: seq<byte>, at: nat)

  /** A multipart field: its name and file name as the client sent them,
      its chunks, and the status of the multipart error that ended it, if
      reading it failed after those chunks. */
  datatype Part = Part(name: Option<string>, fileName: Option<string>, chunks: seq<Chunk>, failure: Option<Status>)

  /** The request body: its parts, and the status of the multipart error
      met when asking for a part after the last one, if any. */
  datatype Body = Body(parts: seq<Part>, failure: Option<Status>)

  /** Where a data part is written: standard output or a file. */
  datatype Sink = StdoutSink | FileSink(path: string)

  /** Files by path, directories created, and what standard output got. */
  datatype World = World(files: map<string, seq<byte>>, dirs: set<string>, stdout: seq<byte>)

  /** What goes wrong when touched: creating the output directory, creating
      a given file, writing the chunk with a given index (counted from 0
      within its part) to a given sink, flushing standard output. */
  datatype Faults = Faults(mkdirFails: bool, createFails: set<string>, writeFails: set<(Sink, nat)>, flushFails: bool)

  /** The one-shot sender that tells the server to shut down. */
  datatype Sender = Sender

  datatype Response =
    | Success(message: string, keepRunning: bool)
    | Failure(status: Status)
    | Panic

  /** The state of the part loop: the world so far, the progress
      display's counters, and the error status that ended the loop, if
      any. */
  datatype Step = Step(world: World, disp: P.Display, status: Option<Status>)

  /** The whole effect of one request: the response, the world, the
      shutdown slot, and the progress display's counters if the handler
      got as far as creating it. */
  datatype Outcome = Outcome(response: Response, world: World, slot: Option<Sender>, display: Option<P.Display>)

  // ---------------------------------------------------------------------
  // Headers
  // ---------------------------------------------------------------------

  /** Header text is readable when every byte is visible ASCII or a tab. */
  predicate VisibleAscii(v: seq<byte>)
  {
    forall i :: 0 <= i < |v| ==> v[i] == 9 || 32 <= v[i] < 127
  }

  function AsText(v: seq<byte>): (s: string)
    ensures |s| == |v| && forall i :: 0 <= i < |v| ==> s[i] as int == v[i]
  {
    seq(|v|, i requires 0 <= i < |v| => v[i] as char)
  }

  /** The bytes of an ASCII string. */
  function AsciiOf(s: string): (v: seq<byte>)
    requires forall i :: 0 <= i < |s| ==> s[i] as int < 128
    ensures AsText(v) == s
  {
    seq(|s|, i requires 0 <= i < |s| => s[i] as int as byte)
  }

  /** The declared body length: the header must be present, readable, and
      an unsigned machine-word number; otherwise `None` (a 400). */
  function ContentLength(h: Headers): (r: Option<nat>)
    ensures r.Some? ==> r.value <= USIZE_MAX
  {
    match h.contentLength
    case None => None
    case Some(v) => if VisibleAscii(v) then ParseUnsigned(AsText(v), USIZE_MAX) else None
  }

  /** A length written in decimal is read back. */
  lemma {:induction false} ContentLengthReads(n: nat, contentType: Option<seq<byte>>)
    requires n <= USIZE_MAX
    ensures ContentLength(Headers(Some(AsciiOf(ToDecimal(n))), contentType)) == Some(n)
  {
    var t := ToDecimal(n);
    var v := AsciiOf(t);
    assert forall i :: 0 <= i < |v| ==> v[i] == t[i] as int && IsDigit(t[i]);
    ParseText(n, USIZE_MAX);
  }

  /** The header is accepted exactly when it denotes a machine-word number
      (an optional `+`, leading zeros, then the number's digits), and its
      value is that number. */
  lemma {:induction false} ContentLengthExact(h: Headers, n: nat)
    ensures ContentLength(h) == Some(n) <==>
      n <= USIZE_MAX && h.contentLength.Some? && Spells(AsText(h.contentLength.value), n)
  {
    if h.contentLength.Some? {
      var v := h.contentLength.value;
      ParseExact(AsText(v), USIZE_MAX, n);
      if Spells(AsText(v), n) {
        SpellsChars(AsText(v), n);
        assert VisibleAscii(v) by {
          forall i | 0 <= i < |v| ensures v[i] == 9 || 32 <= v[i] < 127 {
            assert AsText(v)[i] as int == v[i];
          }
        }
      }
    }
  }

  /** A missing header, an unreadable byte, a minus sign, a value above the
      machine word, and any text that denotes no number (`12a`, an empty
      value, a lone `+`) are all rejected. */
  lemma {:induction false} ContentLengthRejects(h: Headers)
    ensures h.contentLength.None? ==> ContentLength(h).None?
    ensures h.contentLength.Some? && !VisibleAscii(h.contentLength.value) ==> ContentLength(h).None?
    ensures h.contentLength.Some? && |h.contentLength.value| > 0 && h.contentLength.value[0] == 45 ==>
      ContentLength(h).None?
    ensures h.contentLength.Some? ==>
      var t := AsText(h.contentLength.value);
      AllDigits(t) && ValueOf(t) > USIZE_MAX ==> ContentLength(h).None?
    ensures h.contentLength.Some? ==>
      (forall n: nat :: n <= USIZE_MAX ==> !Spells(AsText(h.contentLength.value), n)) ==> ContentLength(h).None?
  {
    if ContentLength(h).Some? {
      ContentLengthExact(h, ContentLength(h).value);
    }
    if h.contentLength.Some? && |h.contentLength.value| > 0 && h.contentLength.value[0] == 45 {
      ParseRejectsMinus(AsText(h.contentLength.value), USIZE_MAX);
    }
  }

  /** The payload size guessed from the declared length: less the
      content-type header's length and 128 bytes of multipart framing,
      never below zero. */
  function SizeEstimate(contentLength: nat, contentTypeLen: nat): (r: nat)
    ensures r <= contentLength
    ensures contentLength >= contentTypeLen + 128 ==> r + contentTypeLen + 128 == contentLength
    ensures contentLength < contentTypeLen + 128 ==> r == 0
  {
    var afterType := if contentLength >= contentTypeLen then contentLength - contentTypeLen else 0;
    if afterType >= 128 then afterType - 128 else 0
  }

  // ---------------------------------------------------------------------
  // Paths
  // ---------------------------------------------------------------------

  /** The normal components of a `/`-separated path: empty pieces (from
      the root or repeated slashes) and `.` are not components. */
  function Components(pieces: seq<string>): (c: seq<string>)
    ensures forall k :: 0 <= k < |c| ==> c[k] in pieces && c[k] != "" && c[k] != "."
  {
    if pieces == [] then []
    else
      var rest := Components(pieces[1..]);
      if pieces[0] == "" || pieces[0] == "." then rest else [pieces[0]] + rest
  }

  /** The file name of a client-supplied path: its last normal component,
      unless there is none or it is `..`. What comes back names no
      directory: it is non-empty, has no `/`, and is neither `.` nor `..`. */
  function SafePath(p: string): (r: Option<string>)
    ensures r.Some? ==> r.value != "" && '/' !in r.value && r.value != "." && r.value != ".."
  {
    var c := Components(Split(p, '/'));
    if c == [] || c[|c| - 1] == ".." then None else Some(c[|c| - 1])
  }

  /** A plain name is a component. */
  predicate PlainName(name: string)
  {
    name != "" && '/' !in name && name != "." && name != ".."
  }

  lemma {:induction false} ComponentsConcat(a: seq<string>, b: seq<string>)
    ensures Components(a + b) == Components(a) + Components(b)
  {
    if a == [] {
      assert a + b == b;
    } else {
      assert (a + b)[1..] == a[1..] + b;
      ComponentsConcat(a[1..], b);
    }
  }

  /** A plain name is its own file name. */
  lemma {:induction false} SafePathOfName(name: string)
    requires PlainName(name)
    ensures SafePath(name) == Some(name)
  {
    SplitNoSep(name, '/');
    assert Split(name, '/') == [name];
    assert Components([name]) == [name] by {
      assert [name][1..] == [];
    }
  }

  /** Whatever directories precede a plain name are dropped, `..` ones
      included: the name cannot lead out of the target directory. */
  lemma {:induction false} SafePathStripsDirs(dir: string, name: string)
    requires PlainName(name)
    ensures SafePath(dir + "/" + name) == Some(name)
  {
    assert dir + "/" + name == dir + ['/'] + name;
    SplitConcat(dir, '/', name);
    SplitNoSep(name, '/');
    ComponentsConcat(Split(dir, '/'), [name]);
    assert Components([name]) == [name] by {
      assert [name][1..] == [];
    }
  }

  /** A path ending in `..` has no file name. */
  lemma {:induction false} SafePathRejectsParent(dir: string)
    ensures SafePath(dir + "/..") == None
  {
    assert dir + "/.." == dir + ['/'] + "..";
    SplitConcat(dir, '/', "..");
    SplitNoSep("..", '/');
    ComponentsConcat(Split(dir, '/'), [".."]);
    assert Components([".."]) == [".."] by {
      assert [".."][1..] == [];
    }
  }

  lemma {:induction false} SafePathExamples()
    ensures SafePath("") == None
    ensures SafePath("/") == None
    ensures SafePath(".") == None
    ensures SafePath("..") == None
  {
    assert Split("/", '/') == ["", ""];
  }

  /** `dir` joined with `name`: a `/` between them unless `dir` is empty or
      already ends in one. */
  function Join(dir: string, name: string): (r: string)
    ensures |r| >= |dir| && r[..|dir|] == dir
    ensures r[|dir|..] == name || r[|dir|..] == "/" + name
    ensures r[|dir|..] == name <==> dir == [] || dir[|dir| - 1] == '/'
  {
    if dir == [] || dir[|dir| - 1] == '/' then dir + name else dir + "/" + name
  }

  /** A safe name joined to a directory is a file directly in it: the
      file name of the joined path is the name again. */
  lemma {:induction false} JoinLands(dir: string, name: string)
    requires PlainName(name)
    ensures SafePath(Join(dir, name)) == Some(name)
  {
    if dir == [] {
      assert Join(dir, name) == name;
      SafePathOfName(name);
    } else if dir[|dir| - 1] == '/' {
      var d := dir[..|dir| - 1];
      assert Join(dir, name) == d + "/" + name;
      SafePathStripsDirs(d, name);
    } else {
      SafePathStripsDirs(dir, name);
    }
  }

  // ---------------------------------------------------------------------
  // Sinks
  // ---------------------------------------------------------------------

  /** The sink a data part goes to, or 400 when the mode needs the
      client's file name and it is missing or has no safe file name. */
  function SinkFor(mode: Mode, fileName: Option<string>): Result<Sink, Status>
  {
    match mode
    case Text(None) => Ok(StdoutSink)
    case SingleFile(Stdout) => Ok(StdoutSink)
    case Text(Some(name)) => Ok(FileSink(name))
    case SingleFile(Filename(name)) => Ok(FileSink(name))
    case MultipleFiles(outDir) =>
      (if fileName.None? then Err(BAD_REQUEST)
       else match SafePath(fileName.value)
         case None => Err(BAD_REQUEST)
         case Some(n) => Ok(FileSink(Join(if outDir.Some? then outDir.value else ".", n))))
    case SingleFile(ClientFilename) =>
      (if fileName.None? then Err(BAD_REQUEST)
       else match SafePath(fileName.value)
         case None => Err(BAD_REQUEST)
         case Some(n) => Ok(FileSink(n)))
  }

  /** Only the multiple-files and client-file-name modes look at the
      client's file name. */
  predicate UsesClientName(mode: Mode)
  {
    mode.MultipleFiles? || mode == SingleFile(ClientFilename)
  }

  /** The sink table: standard output for text without a file and for
      single-file-to-stdout; the configured file for text and single-file
      with a name; otherwise a file named after the client's file name,
      inside the output directory (`.` by default) for multiple files. */
  lemma {:induction false} SinkTable(mode: Mode, fileName: Option<string>)
    ensures mode == Text(None) || mode == SingleFile(Stdout) ==> SinkFor(mode, fileName) == Ok(StdoutSink)
    ensures mode.Text? && mode.outFilename.Some? ==> SinkFor(mode, fileName) == Ok(FileSink(mode.outFilename.value))
    ensures mode.SingleFile? && mode.out.Filename? ==> SinkFor(mode, fileName) == Ok(FileSink(mode.out.name))
    ensures UsesClientName(mode) ==>
      (SinkFor(mode, fileName).Err? <==> fileName.None? || SafePath(fileName.value).None?)
    ensures UsesClientName(mode) && SinkFor(mode, fileName).Err? ==> SinkFor(mode, fileName).error == BAD_REQUEST
    ensures mode == SingleFile(ClientFilename) && SinkFor(mode, fileName).Ok? ==>
      SinkFor(mode, fileName).value == FileSink(SafePath(fileName.value).value)
    ensures mode.MultipleFiles? && SinkFor(mode, fileName).Ok? ==>
      var dir := if mode.outDir.Some? then mode.outDir.value else ".";
      SinkFor(mode, fileName).value == FileSink(Join(dir, SafePath(fileName.value).value))
  {
  }

  /** A client file name reaches no further than the output directory:
      the sink's own file name is the client's, with any directories and
      `..` dropped. */
  lemma {:induction false} ClientFileStaysInside(mode: Mode, fileName: Option<string>)
    requires UsesClientName(mode) && SinkFor(mode, fileName).Ok?
    ensures SinkFor(mode, fileName).value.FileSink?
    ensures SafePath(SinkFor(mode, fileName).value.path) == SafePath(fileName.value)
    ensures var path := SinkFor(mode, fileName).value.path;
      var n := SafePath(fileName.value).value;
      if mode.MultipleFiles? then
        var dir := if mode.outDir.Some? then mode.outDir.value else ".";
        |path| >= |dir| && path[..|dir|] == dir && (path[|dir|..] == n || path[|dir|..] == "/" + n)
      else path == n
  {
    var n := SafePath(fileName.value).value;
    if mode.MultipleFiles? {
      JoinLands(if mode.outDir.Some? then mode.outDir.value else ".", n);
    } else {
      SafePathOfName(n);
    }
  }

  /** In the other modes the client's file name makes no difference. */
  lemma {:induction false} FileNameIgnored(mode: Mode, f1: Option<string>, f2: Option<string>)
    requires !UsesClientName(mode)
    ensures SinkFor(mode, f1) == SinkFor(mode, f2)
    ensures SinkFor(mode, f1).Ok?
  {
    match mode
    case Text(_) =>
    case SingleFile(out) => assert out != ClientFilename;
  }

  /** Opening the sink: a file is created (or truncated), which fails with
      500 when creating that path fails; standard output is always open. */
  function FromMode(mode: Mode, fileName: Option<string>, faults: Faults): (r: Result<Sink, Status>)
    ensures SinkFor(mode, fileName).Err? ==> r == SinkFor(mode, fileName)
    ensures r.Ok? ==> SinkFor(mode, fileName) == Ok(r.value)
    ensures r.Ok? && r.value.FileSink? ==> r.value.path !in faults.createFails
  {
    match SinkFor(mode, fileName)
    case Err(e) => Err(e)
    case Ok(s) => if s.FileSink? && s.path in faults.createFails then Err(INTERNAL_SERVER_ERROR) else Ok(s)
  }

  /** When the chosen file cannot be created the part fails with 500;
      any other chosen sink opens. */
  lemma {:induction false} CreateFailure(mode: Mode, fileName: Option<string>, faults: Faults, sink: Sink)
    requires SinkFor(mode, fileName) == Ok(sink)
    ensures sink.FileSink? && sink.path in faults.createFails ==>
      FromMode(mode, fileName, faults) == Err(INTERNAL_SERVER_ERROR)
    ensures !(sink.FileSink? && sink.path in faults.createFails) ==> FromMode(mode, fileName, faults) == Ok(sink)
  {
  }

  /** Creating a file leaves it empty. */
  function Open(w: World, sink: Sink): World
  {
    match sink
    case StdoutSink => w
    case FileSink(path) => w.(files := w.files[path := []])
  }

  /** Writing `data` at the end of the sink. */
  function Append(w: World, sink: Sink, data: seq<byte>): World
  {
    match sink
    case StdoutSink => w.(stdout := w.stdout + data)
    case FileSink(path) => w.(files := w.files[path := (if path in w.files then w.files[path] else []) + data])
  }

  /** Two writes to a sink are one write of both, in order. */
  lemma {:induction false} AppendTwice(w: World, sink: Sink, a: seq<byte>, b: seq<byte>)
    ensures Append(Append(w, sink, a), sink, b) == Append(w, sink, a + b)
  {
    match sink
    case StdoutSink =>
      assert w.stdout + a + b == w.stdout + (a + b);
    case FileSink(path) =>
      var before := if path in w.files then w.files[path] else [];
      assert before + a + b == before + (a + b);
  }

  /** Flushing: standard output can fail (500); a file has nothing to
      flush and never fails. */
  function Flush(sink: Sink, faults: Faults): (r: Option<Status>)
    ensures sink.FileSink? ==> r.None?
    ensures sink.StdoutSink? ==> (r.Some? <==> faults.flushFails)
    ensures r.Some? ==> r.value == INTERNAL_SERVER_ERROR
  {
    if sink.StdoutSink? && faults.flushFails then Some(INTERNAL_SERVER_ERROR) else None
  }

  // ---------------------------------------------------------------------
  // The part loop, as functions
  // ---------------------------------------------------------------------

  /** The bytes of the chunks, in order. */
  function Payload(chunks: seq<Chunk>): seq<byte>
  {
    if chunks == [] then [] else chunks[0].data + Payload(chunks[1..])
  }

  /** The display's counters after counting each chunk, in order, at its
      arrival time; a quiet upload counts nothing. */
  function Counted(d: P.Display, chunks: seq<Chunk>, quiet: bool): (r: P.Display)
    ensures r.soFar == d.soFar + (if quiet then 0 else |Payload(chunks)|)
    ensures r.lastUpdateBytes >= d.lastUpdateBytes
    decreases |chunks|
  {
    if quiet || chunks == [] then d
    else Counted(P.Advance(d, |chunks[0].data|, chunks[0].at), chunks[1..], quiet)
  }

  /** The index of the first chunk, from `i` on, whose write to `sink`
      fails, or `n` when none does. */
  function FirstFault(sink: Sink, n: nat, i: nat, faults: Faults): (k: nat)
    requires i <= n
    ensures i <= k <= n
    ensures forall j :: i <= j < k ==> (sink, j) !in faults.writeFails
    ensures k < n ==> (sink, k) in faults.writeFails
    decreases n - i
  {
    if i == n || (sink, i) in faults.writeFails then i else FirstFault(sink, n, i + 1, faults)
  }

  /** The chunk loop from chunk `i` on: each chunk is written to the sink
      and, unless quiet, counted; a failing write ends the loop with 500,
      leaving the chunks before it written. */
  function WriteChunks(sink: Sink, chunks: seq<Chunk>, i: nat, faults: Faults, quiet: bool, w: World, d: P.Display): Step
    requires i <= |chunks|
    decreases |chunks| - i
  {
    if i == |chunks| then Step(w, d, None)
    else if (sink, i) in faults.writeFails then Step(w, d, Some(INTERNAL_SERVER_ERROR))
    else
      WriteChunks(sink, chunks, i + 1, faults, quiet, Append(w, sink, chunks[i].data),
        if quiet then d else P.Advance(d, |chunks[i].data|, chunks[i].at))
  }

  /** One data part: open its sink, write its chunks, then fail with the
      part's own multipart error if it had one, else flush. */
  function RunPart(mode: Mode, quiet: bool, faults: Faults, p: Part, w: World, d: P.Display): Step
  {
    match FromMode(mode, p.fileName, faults)
    case Err(code) => Step(w, d, Some(code))
    case Ok(sink) =>
      var s := WriteChunks(sink, p.chunks, 0, faults, quiet, Open(w, sink), d);
      if s.status.Some? then s
      else if p.failure.Some? then s.(status := p.failure)
      else s.(status := Flush(sink, faults))
  }

  /** The part loop: parts not named `data` are skipped, but a multipart
      error met inside a skipped part ends the loop when the next part is
      asked for; after a data part the loop goes on only in multiple-files
      mode; the body's trailing error is met only when the loop asks for a
      part after the last. */
  function RunParts(mode: Mode, quiet: bool, faults: Faults, parts: seq<Part>, tail: Option<Status>, w: World, d: P.Display): Step
  {
    if parts == [] then Step(w, d, tail)
    else if parts[0].name != Some("data") then
      if parts[0].failure.Some? then Step(w, d, parts[0].failure)
      else RunParts(mode, quiet, faults, parts[1..], tail, w, d)
    else
      var s := RunPart(mode, quiet, faults, parts[0], w, d);
      if s.status.Some? || !mode.MultipleFiles? then s
      else RunParts(mode, quiet, faults, parts[1..], tail, s.world, s.disp)
  }

  /** Every chunk before the first failing write lands in the sink, in
      order, and is counted unless quiet; the loop fails (with 500)
      exactly when some write from chunk `i` on fails. */
  lemma {:induction false} WriteChunksFidelity(sink: Sink, chunks: seq<Chunk>, i: nat, faults: Faults, quiet: bool, w: World, d: P.Display)
    requires i <= |chunks|
    requires sink.FileSink? ==> sink.path in w.files
    ensures var s := WriteChunks(sink, chunks, i, faults, quiet, w, d);
      var k := FirstFault(sink, |chunks|, i, faults);
      s.world == Append(w, sink, Payload(chunks[i..k])) &&
      s.disp == Counted(d, chunks[i..k], quiet) &&
      (s.status.None? <==> k == |chunks|) &&
      (s.status.Some? ==> s.status == Some(INTERNAL_SERVER_ERROR))
    decreases |chunks| - i
  {
    var k := FirstFault(sink, |chunks|, i, faults);
    if i == |chunks| || (sink, i) in faults.writeFails {
      assert chunks[i..k] == [];
      match sink
      case StdoutSink => assert w.stdout + [] == w.stdout;
      case FileSink(path) => assert w.files[path] + [] == w.files[path];
    } else {
      var w1 := Append(w, sink, chunks[i].data);
      WriteChunksFidelity(sink, chunks, i + 1, faults, quiet, w1, if quiet then d else P.Advance(d, |chunks[i].data|, chunks[i].at));
      assert chunks[i..k][0] == chunks[i] && chunks[i..k][1..] == chunks[i + 1..k];
      AppendTwice(w, sink, chunks[i].data, Payload(chunks[i + 1..k]));
    }
  }

  /** A data part that goes through leaves its whole payload in its sink:
      a file holds exactly the payload, standard output gets it appended;
      nothing else changes. */
  lemma {:induction false} PartFidelity(mode: Mode, quiet: bool, faults: Faults, p: Part, w: World, d: P.Display)
    requires RunPart(mode, quiet, faults, p, w, d).status.None?
    ensures SinkFor(mode, p.fileName).Ok?
    ensures var s := RunPart(mode, quiet, faults, p, w, d);
      s.disp == Counted(d, p.chunks, quiet) &&
      match SinkFor(mode, p.fileName).value
      case StdoutSink => s.world == w.(stdout := w.stdout + Payload(p.chunks))
      case FileSink(path) => s.world == w.(files := w.files[path := Payload(p.chunks)])
  {
    var sink := FromMode(mode, p.fileName, faults).value;
    WriteChunksFidelity(sink, p.chunks, 0, faults, quiet, Open(w, sink), d);
    assert p.chunks[0..|p.chunks|] == p.chunks;
    assert [] + Payload(p.chunks) == Payload(p.chunks);
  }

  /** Skipping parts not named `data`: they write nothing, and the loop
      either stops at the first multipart error among them or carries on
      with what follows as if they were not there. */
  lemma {:induction false} SkipNonData(mode: Mode, quiet: bool, faults: Faults, pre: seq<Part>, rest: seq<Part>, tail: Option<Status>, w: World, d: P.Display)
    requires forall k :: 0 <= k < |pre| ==> pre[k].name != Some("data")
    ensures RunParts(mode, quiet, faults, pre + rest, tail, w, d) ==
      if Drain(pre, None).Some? then Step(w, d, Drain(pre, None))
      else RunParts(mode, quiet, faults, rest, tail, w, d)
  {
    if pre == [] {
      assert pre + rest == rest;
    } else {
      assert (pre + rest)[0] == pre[0];
      assert (pre + rest)[1..] == pre[1..] + rest;
      if pre[0].failure.None? {
        SkipNonData(mode, quiet, faults, pre[1..], rest, tail, w, d);
      }
    }
  }

  /** A body without data parts writes nothing and ends as reading it to
      its end does: with its first multipart error, if any. */
  lemma {:induction false} NoDataNoWrites(mode: Mode, quiet: bool, faults: Faults, parts: seq<Part>, tail: Option<Status>, w: World, d: P.Display)
    requires forall k :: 0 <= k < |parts| ==> parts[k].name != Some("data")
    ensures RunParts(mode, quiet, faults, parts, tail, w, d) == Step(w, d, Drain(parts, tail))
  {
    if parts != [] && parts[0].failure.None? {
      NoDataNoWrites(mode, quiet, faults, parts[1..], tail, w, d);
    }
  }

  /** Outside multiple-files mode only the first data part is handled:
      whatever follows it, even a malformed rest of the body, is never
      read; a multipart error in a part skipped before it stops the loop
      before it. */
  lemma {:induction false} FirstDataOnly(mode: Mode, quiet: bool, faults: Faults, pre: seq<Part>, p: Part, post: seq<Part>, tail: Option<Status>, w: World, d: P.Display)
    requires !mode.MultipleFiles?
    requires forall k :: 0 <= k < |pre| ==> pre[k].name != Some("data")
    requires p.name == Some("data")
    ensures RunParts(mode, quiet, faults, pre + [p] + post, tail, w, d) ==
      if Drain(pre, None).Some? then Step(w, d, Drain(pre, None))
      else RunPart(mode, quiet, faults, p, w, d)
  {
    assert pre + [p] + post == pre + ([p] + post);
    SkipNonData(mode, quiet, faults, pre, [p] + post, tail, w, d);
    assert ([p] + post)[0] == p;
  }

  /** The part loop creates and removes no directories. */
  lemma {:induction false} RunPartsKeepsDirs(mode: Mode, quiet: bool, faults: Faults, parts: seq<Part>, tail: Option<Status>, w: World, d: P.Display)
    ensures RunParts(mode, quiet, faults, parts, tail, w, d).world.dirs == w.dirs
  {
    if parts != [] {
      if parts[0].name != Some("data") {
        if parts[0].failure.None? {
          RunPartsKeepsDirs(mode, quiet, faults, parts[1..], tail, w, d);
        }
      } else {
        var s := RunPart(mode, quiet, faults, parts[0], w, d);
        match FromMode(mode, parts[0].fileName, faults)
        case Err(_) =>
        case Ok(sink) =>
          WriteChunksKeepsDirs(sink, parts[0].chunks, 0, faults, quiet, Open(w, sink), d);
          if s.status.None? && mode.MultipleFiles? {
            RunPartsKeepsDirs(mode, quiet, faults, parts[1..], tail, s.world, s.disp);
          }
      }
    }
  }

  lemma {:induction false} WriteChunksKeepsDirs(sink: Sink, chunks: seq<Chunk>, i: nat, faults: Faults, quiet: bool, w: World, d: P.Display)
    requires i <= |chunks|
    ensures WriteChunks(sink, chunks, i, faults, quiet, w, d).world.dirs == w.dirs
    decreases |chunks| - i
  {
    if i < |chunks| && (sink, i) !in faults.writeFails {
      WriteChunksKeepsDirs(sink, chunks, i + 1, faults, quiet, Append(w, sink, chunks[i].data),
        if quiet then d else P.Advance(d, |chunks[i].data|, chunks[i].at));
    }
  }

  // ---------------------------------------------------------------------
  // The handler, as a function
  // ---------------------------------------------------------------------

  /** The first multipart error met while reading the body to its end. */
  function Drain(parts: seq<Part>, tail: Option<Status>): (r: Option<Status>)
    ensures r.Some? <==> tail.Some? || exists k :: 0 <= k < |parts| && parts[k].failure.Some?
    ensures r.Some? && tail.None? ==> exists k :: 0 <= k < |parts| && parts[k].failure == r
    ensures forall k ::
      0 <= k < |parts| && parts[k].failure.Some? && (forall j :: 0 <= j < k ==> parts[j].failure.None?)
      ==> r == parts[k].failure
    ensures (forall k :: 0 <= k < |parts| ==> parts[k].failure.None?) ==> r == tail
  {
    if parts == [] then tail
    else if parts[0].failure.Some? then parts[0].failure
    else
      var r := Drain(parts[1..], tail);
      assert forall k :: 0 <= k < |parts[1..]| ==> parts[1..][k] == parts[k + 1];
      assert (exists k :: 0 <= k < |parts| && parts[k].failure.Some?) ==>
        exists k :: 0 <= k < |parts[1..]| && parts[1..][k].failure.Some?;
      r
  }

  /** The status of an over-limit request: 413 once the body is read to
      its end, or the multipart error met on the way. */
  function DrainStatus(body: Body): Status
  {
    match Drain(body.parts, body.failure)
    case Some(code) => code
    case None => PAYLOAD_TOO_LARGE
  }

  /** The success message names what was received. */
  function Message(mode: Mode): string
  {
    match mode
    case MultipleFiles(_) => "Your files have been uploaded."
    case SingleFile(_) => "Your file has been uploaded."
    case Text(_) => "Your text has been sent."
  }

  /** The message depends on the mode's variant only, and tells the
      variants apart. */
  lemma {:induction false} MessageByVariant(m1: Mode, m2: Mode)
    ensures Message(m1) == Message(m2) <==> Index.SameVariant(m1, m2)
  {
    var files, file, text := "Your files have been uploaded.", "Your file has been uploaded.", "Your text has been sent.";
    assert files[9] != file[9];
    assert files[5] != text[5];
    assert file[5] != text[5];
  }

  /** The request handler. */
  function Handle(args: Args, h: Headers, body: Body, faults: Faults, w: World, slot: Option<Sender>, now: nat): Outcome
  {
    match ContentLength(h)
    case None => Outcome(Failure(BAD_REQUEST), w, slot, None)
    case Some(cl) =>
      if cl > args.limit then Outcome(Failure(DrainStatus(body)), w, slot, None)
      else if h.contentType.None? then Outcome(Failure(BAD_REQUEST), w, slot, None)
      else Accept(args, body, faults, w, slot, now)
  }

  /** The handler once the headers are accepted: create the output
      directory, run the part loop, then signal shutdown and answer. */
  function Accept(args: Args, body: Body, faults: Faults, w: World, slot: Option<Sender>, now: nat): Outcome
  {
    var makesDir := args.mode.MultipleFiles? && args.mode.outDir.Some?;
    if makesDir && faults.mkdirFails then Outcome(Failure(INTERNAL_SERVER_ERROR), w, slot, None)
    else
      var w1 := if makesDir then w.(dirs := w.dirs + {args.mode.outDir.value}) else w;
      var s := RunParts(args.mode, args.quiet, faults, body.parts, body.failure, w1, P.Start(now));
      if s.status.Some? then Outcome(Failure(s.status.value), s.world, slot, Some(s.disp))
      else if args.keepRunning then Outcome(Success(Message(args.mode), true), s.world, slot, Some(s.disp))
      else if slot.None? then Outcome(Panic, s.world, None, Some(s.disp))
      else Outcome(Success(Message(args.mode), false), s.world, None, Some(s.disp))
  }

  /** An unusable length header is a 400 that touches nothing. */
  lemma {:induction false} BadContentLength(args: Args, h: Headers, body: Body, faults: Faults, w: World, slot: Option<Sender>, now: nat)
    requires ContentLength(h).None?
    ensures Handle(args, h, body, faults, w, slot, now) == Outcome(Failure(BAD_REQUEST), w, slot, None)
  {
  }

  /** A declared length above the limit is refused before anything is
      written, with 413 unless reading the body to its end fails first. */
  lemma {:induction false} OverLimitTouchesNothing(args: Args, h: Headers, body: Body, faults: Faults, w: World, slot: Option<Sender>, now: nat)
    requires ContentLength(h).Some? && ContentLength(h).value > args.limit
    ensures var o := Handle(args, h, body, faults, w, slot, now);
      o.response.Failure? && o.world == w && o.slot == slot && o.display.None?
    ensures body.failure.None? && (forall k :: 0 <= k < |body.parts| ==> body.parts[k].failure.None?) ==>
      Handle(args, h, body, faults, w, slot, now).response == Failure(PAYLOAD_TOO_LARGE)
  {
  }

  /** The limit itself is allowed: a length equal to it is handled. */
  lemma {:induction false} LimitIsInclusive(args: Args, h: Headers, body: Body, faults: Faults, w: World, slot: Option<Sender>, now: nat)
    requires ContentLength(h) == Some(args.limit) && h.contentType.Some?
    ensures Handle(args, h, body, faults, w, slot, now) == Accept(args, body, faults, w, slot, now)
  {
  }

  /** The shutdown slot: it is emptied exactly when an upload succeeds
      without keep-running; keep-running never touches it; a success
      echoes the keep-running flag and names the mode; and reaching the
      signal with an empty slot panics. */
  lemma {:induction false} ShutdownSlot(args: Args, h: Headers, body: Body, faults: Faults, w: World, slot: Option<Sender>, now: nat)
    ensures var o := Handle(args, h, body, faults, w, slot, now);
      (o.slot != slot <==> slot.Some? && !args.keepRunning && o.response.Success?) &&
      (o.slot.Some? ==> slot.Some?) &&
      (args.keepRunning ==> o.slot == slot && !o.response.Panic?) &&
      (o.response.Panic? ==> !args.keepRunning && slot.None?) &&
      (o.response.Success? ==> o.response.keepRunning == args.keepRunning && o.response.message == Message(args.mode))
  {
  }

  /** Without keep-running the server is signalled at most once: after a
      successful upload, no later request can succeed. */
  lemma {:induction false} SignalledOnce(args: Args, h1: Headers, b1: Body, f1: Faults, w1: World, slot: Option<Sender>, now1: nat,
                      h2: Headers, b2: Body, f2: Faults, w2: World, now2: nat)
    requires !args.keepRunning
    requires Handle(args, h1, b1, f1, w1, slot, now1).response.Success?
    ensures !Handle(args, h2, b2, f2, w2, Handle(args, h1, b1, f1, w1, slot, now1).slot, now2).response.Success?
  {
    ShutdownSlot(args, h1, b1, f1, w1, slot, now1);
    ShutdownSlot(args, h2, b2, f2, w2, Handle(args, h1, b1, f1, w1, slot, now1).slot, now2);
  }

  /** In multiple-files mode with a directory, a success means the
      directory exists. */
  lemma {:induction false} DirectoryCreated(args: Args, h: Headers, body: Body, faults: Faults, w: World, slot: Option<Sender>, now: nat)
    requires args.mode.MultipleFiles? && args.mode.outDir.Some?
    requires Handle(args, h, body, faults, w, slot, now).response.Success?
    ensures args.mode.outDir.value in Handle(args, h, body, faults, w, slot, now).world.dirs
  {
    var w1 := w.(dirs := w.dirs + {args.mode.outDir.value});
    RunPartsKeepsDirs(args.mode, args.quiet, faults, body.parts, body.failure, w1, P.Start(now));
  }

  // ---------------------------------------------------------------------
  // The handler, as the server runs it
  // ---------------------------------------------------------------------

  /** Reads an over-limit body to its end, part by part. */
  method DrainBody(body: Body) returns (code: Status)
    ensures code == DrainStatus(body)
  {
    var i := 0;
    while i < |body.parts|
      invariant 0 <= i <= |body.parts|
      invariant Drain(body.parts, body.failure) == Drain(body.parts[i..], body.failure)
    {
      // the part's chunks are read and dropped
      if body.parts[i].failure.Some? {
        return body.parts[i].failure.value;
      }
      assert body.parts[i..][1..] == body.parts[i + 1..];
      i := i + 1;
    }
    code := if body.failure.Some? then body.failure.value else PAYLOAD_TOO_LARGE;
  }

  /** Writes the chunks of one part, counting them on `progress` unless
      quiet. */
  method PumpChunks(sink: Sink, chunks: seq<Chunk>, faults: Faults, quiet: bool, w: World, progress: P.Progress)
    returns (s: Step)
    requires progress.Valid()
    modifies progress
    ensures progress.Valid()
    ensures s == WriteChunks(sink, chunks, 0, faults, quiet, w, old(progress.Snapshot()))
    ensures s.disp == progress.Snapshot()
  {
    var i := 0;
    var world := w;
    while i < |chunks|
      invariant 0 <= i <= |chunks|
      invariant progress.Valid()
      invariant WriteChunks(sink, chunks, 0, faults, quiet, w, old(progress.Snapshot())) ==
        WriteChunks(sink, chunks, i, faults, quiet, world, progress.Snapshot())
    {
      if (sink, i) in faults.writeFails {
        return Step(world, progress.Snapshot(), Some(INTERNAL_SERVER_ERROR));
      }
      world := Append(world, sink, chunks[i].data);
      if !quiet {
        var _ := progress.Update(|chunks[i].data|, chunks[i].at);
      }
      i := i + 1;
    }
    s := Step(world, progress.Snapshot(), None);
  }

  /** The part loop. */
  method ReceiveParts(mode: Mode, quiet: bool, faults: Faults, parts: seq<Part>, tail: Option<Status>, w: World, progress: P.Progress)
    returns (s: Step)
    requires progress.Valid()
    modifies progress
    ensures progress.Valid()
    ensures s == RunParts(mode, quiet, faults, parts, tail, w, old(progress.Snapshot()))
    ensures s.disp == progress.Snapshot()
  {
    var i := 0;
    var world := w;
    while i < |parts|
      invariant 0 <= i <= |parts|
      invariant progress.Valid()
      invariant RunParts(mode, quiet, faults, parts, tail, w, old(progress.Snapshot())) ==
        RunParts(mode, quiet, faults, parts[i..], tail, world, progress.Snapshot())
    {
      var p := parts[i];
      assert parts[i..][0] == p && parts[i..][1..] == parts[i + 1..];
      if p.name != Some("data") {
        // reading past a skipped part meets its multipart error
        if p.failure.Some? {
          return Step(world, progress.Snapshot(), p.failure);
        }
        i := i + 1;
        continue;
      }
      var out := FromMode(mode, p.fileName, faults);
      if out.Err? {
        return Step(world, progress.Snapshot(), Some(out.error));
      }
      var sink := out.value;
      if !quiet && p.fileName.Some? {
        var _ := progress.NewFile(p.fileName.value);
      }
      var st := PumpChunks(sink, p.chunks, faults, quiet, Open(world, sink), progress);
      if st.status.Some? {
        return st;
      }
      if p.failure.Some? {
        return st.(status := p.failure);
      }
      var flushed := Flush(sink, faults);
      if flushed.Some? {
        return st.(status := flushed);
      }
      world := st.world;
      if !mode.MultipleFiles? {
        return st;
      }
      i := i + 1;
    }
    s := Step(world, progress.Snapshot(), tail);
  }

  /** The server state the handler shares with the rest of the program:
      the configuration and the slot holding the shutdown sender.
      `signals` counts the shutdown signals sent so far. */
  class State {
    const args: Args
    var closeSender: Option<Sender>
    var signals: nat

    /** The sender is either still in its slot or has been used once. */
    ghost predicate Valid()
      reads this
    {
      signals + (if closeSender.Some? then 1 else 0) == 1
    }

    constructor(args: Args)
      ensures Valid()
      ensures this.args == args && closeSender == Some(Sender) && signals == 0
    {
      this.args := args;
      closeSender := Some(Sender);
      signals := 0;
    }

    /** Handles one upload. `now` is the clock reading (ms) when the
        handler starts; `progress` is the display it created, if it got
        that far. */
    method Upload(h: Headers, body: Body, faults: Faults, w: World, now: nat)
      returns (resp: Response, w': World, progress: P.Progress?)
      requires Valid()
      modifies this
      ensures Valid()
      ensures var o := Handle(args, h, body, faults, w, old(closeSender), now);
        resp == o.response && w' == o.world && closeSender == o.slot
      ensures signals == old(signals) + (if old(closeSender).Some? && closeSender.None? then 1 else 0)
      ensures progress != null <==> Handle(args, h, body, faults, w, old(closeSender), now).display.Some?
      ensures progress != null <==>
        ContentLength(h).Some? && ContentLength(h).value <= args.limit && h.contentType.Some? &&
        !(args.mode.MultipleFiles? && args.mode.outDir.Some? && faults.mkdirFails)
      ensures progress != null ==>
        ContentLength(h).Some? && h.contentType.Some? &&
        fresh(progress) && progress.Valid() &&
        Handle(args, h, body, faults, w, old(closeSender), now).display == Some(progress.Snapshot()) &&
        progress.total == SizeEstimate(ContentLength(h).value, |h.contentType.value|)
    {
      ghost var o := Handle(args, h, body, faults, w, closeSender, now);
      progress := null;
      w' := w;
      var cl := ContentLength(h);
      if cl.None? {
        resp := Failure(BAD_REQUEST);
        return;
      }
      if cl.value > args.limit {
        var code := DrainBody(body);
        resp := Failure(code);
        return;
      }
      if h.contentType.None? {
        resp := Failure(BAD_REQUEST);
        return;
      }
      assert o == Accept(args, body, faults, w, closeSender, now);
      var estimate := SizeEstimate(cl.value, |h.contentType.value|);
      if args.mode.MultipleFiles? && args.mode.outDir.Some? {
        if faults.mkdirFails {
          resp := Failure(INTERNAL_SERVER_ERROR);
          return;
        }
        w' := w'.(dirs := w'.dirs + {args.mode.outDir.value});
      }
      progress := new P.Progress(estimate, now);
      var s := ReceiveParts(args.mode, args.quiet, faults, body.parts, body.failure, w', progress);
      w' := s.world;
      if s.status.Some? {
        resp := Failure(s.status.value);
        return;
      }
      if !args.keepRunning {
        var sender := closeSender;
        closeSender := None;
        if sender.None? {
          resp := Panic;
          return;
        }
        signals := signals + 1;
      }
      resp := Success(Message(args.mode), args.keepRunning);
    }
  }
}
