/**
 The command lines of a file transfer (sw_core/file_transfer.py) and what the target's shell
 does with them.
 */
module Shell {
  import opened Wrappers
  import opened Bytes
  import opened Text
  import Base64

  datatype Tool = Base64Tool | OpenSsl

  datatype Op = Overwrite | Append

  datatype Command =
    | ProbeDecoder
    | ProbeEncoder
    | Chunk(encoded: string, decoder: Tool, op: Op, path: string)
    | Md5(path: string)
    | Move(source: string, target: string)
    | Cleanup(path: string)
    | Pull(path: string, encoder: Tool)

  // ---- rendering ----

  /** Characters `shlex.quote` leaves bare. */
  predicate IsSafe(c: char) {
    'A' <= c <= 'Z' || 'a' <= c <= 'z' || '0' <= c <= '9' || c == '_' || c == '@' || c == '%' || c == '+'
    || c == '=' || c == ':' || c == ',' || c == '.' || c == '/' || c == '-'
  }

  function EscapeQuotes(s: string): string {
    if s == "" then ""
    else (if s[0] == '\'' then "'\"'\"'" else [s[0]]) + EscapeQuotes(s[1..])
  }

  function Quote(s: string): string {
    if s == "" then "''"
    else if forall c :: c in s ==> IsSafe(c) then s
    else "'" + EscapeQuotes(s) + "'"
  }

  const PROBE_PAYLOAD := "c3ctcHJvYmU="

  /** Two words and the space between them. */
  function Spaced(a: string, b: string): string {
    a + [' '] + b
  }

  /** What the shell completes with 42. */
  function FinalWord(prefix: string): string {
    "'" + prefix + "'$((6*7))"
  }

  function RuntimeSentinel(prefix: string): string {
    Spaced("printf '%s\\n'", FinalWord(prefix))
  }

  const AND_PRINT := "&& printf '%s\\n'"

  /** `&&` and the sentinel. */
  function Ending(prefix: string): string {
    Spaced(AND_PRINT, FinalWord(prefix))
  }

  function DecoderName(t: Tool): string {
    if t.Base64Tool? then "base64 -d" else "openssl enc -base64 -d -A"
  }

  function EncoderName(t: Tool): string {
    if t.Base64Tool? then "base64" else "openssl enc -base64"
  }

  function OpText(op: Op): string {
    if op.Overwrite? then ">" else ">>"
  }

  const BEGIN := "===SW_XFER_BEGIN==="
  const END := "===SW_XFER_END==="

  /** A marker split by quotes, so that the echoed command does not contain it. */
  function MarkerExpression(middle: string): string {
    "'===SW_XFER_'" + middle + "'==='"
  }

  function ChunkPipe(decoder: Tool, op: Op): string {
    Spaced("| " + DecoderName(decoder), OpText(op))
  }

  function ChunkTail(decoder: Tool, op: Op, path: string): string {
    Spaced(ChunkPipe(decoder, op), Spaced(Quote(path), Ending("SW_XFER_CHUNK_")))
  }

  function ChunkLine(quoted: string, tail: string): string {
    Spaced("printf '%s'", Spaced(quoted, tail))
  }

  function PullHead(encoder: Tool): string {
    "printf '%s\\n' " + MarkerExpression("BEGIN") + (" && " + EncoderName(encoder) + " <")
  }

  function PullTail(): string {
    Spaced(PullFirstTail(), FinalWord("SW_XFER_ENCODER_FAILED_"))
  }

  function PullFirstTail(): string {
    "&& printf '%s\\n' " + MarkerExpression("END") + " || printf '%s\\n'"
  }

  // The pieces of a probe's line, cut at the quotes around its payload and its expected answer.

  function ProbeHead(payload: string): string {
    "if test \"$(printf '%s' '" + payload
  }

  function ProbePipe(tool: string): string {
    tool + " 2>/dev/null)\" = "
  }

  function ProbeMiddle(want: string, found: string, payload: string): string {
    want + "'; then " + RuntimeSentinel(found) + "; elif test \"$(printf '%s' '" + payload
  }

  function ProbeEnd(want: string, found: string): string {
    want + "'; then " + RuntimeSentinel(found) + "; fi"
  }

  function ProbeText(head: string, pipe1: string, middle: string, pipe2: string, end: string): string {
    head + "'" + pipe1 + "'" + middle + "'" + pipe2 + "'" + end
  }

  function ProbeWith(payload: string, want: string, tool1: string, found1: string, tool2: string, found2: string): string {
    ProbeText(ProbeHead(payload), ProbePipe(tool1), ProbeMiddle(want, found1, payload), ProbePipe(tool2), ProbeEnd(want, found2))
  }

  function Render(cmd: Command): string {
    match cmd
    case ProbeDecoder =>
      ProbeWith(PROBE_PAYLOAD, "sw-probe", " | base64 -d", "SW_XFER_DECODER_B64_",
                " | openssl enc -base64 -d -A", "SW_XFER_DECODER_OPENSSL_")
    case ProbeEncoder =>
      ProbeWith("sw-probe", PROBE_PAYLOAD, " | base64", "SW_XFER_ENCODER_B64_",
                " | openssl enc -base64", "SW_XFER_ENCODER_OPENSSL_")
    case Chunk(encoded, decoder, op, path) => ChunkLine(Quote(encoded), ChunkTail(decoder, op, path))
    case Md5(path) => Spaced("md5sum", Spaced(Quote(path), Ending("SW_XFER_MD5_")))
    case Move(source, target) => Spaced("mv", Spaced(Quote(source), Spaced(Quote(target), Ending("SW_XFER_MV_"))))
    case Cleanup(path) => Spaced("rm -f", Spaced(Quote(path), Ending("SW_XFER_CLEANUP_")))
    case Pull(path, encoder) => Spaced(PullHead(encoder), Spaced(Quote(path), PullTail()))
  }

  /** What the target prints once a line has run; a probe names the tool it found. */
  function Sentinel(cmd: Command): string {
    match cmd
    case ProbeDecoder => ProbeSentinel(cmd, Base64Tool)
    case ProbeEncoder => ProbeSentinel(cmd, Base64Tool)
    case Chunk(_, _, _, _) => "SW_XFER_CHUNK_42"
    case Md5(_) => "SW_XFER_MD5_42"
    case Move(_, _) => "SW_XFER_MV_42"
    case Cleanup(_) => "SW_XFER_CLEANUP_42"
    case Pull(_, _) => END
  }

  function ProbeSentinel(cmd: Command, tool: Tool): string {
    if cmd.ProbeDecoder? then
      if tool.Base64Tool? then "SW_XFER_DECODER_B64_42" else "SW_XFER_DECODER_OPENSSL_42"
    else if tool.Base64Tool? then "SW_XFER_ENCODER_B64_42" else "SW_XFER_ENCODER_OPENSSL_42"
  }

  const ENCODER_FAILED := "SW_XFER_ENCODER_FAILED_42"

  // ---- the line budget ----

  function LineSize(cmd: Command): nat {
    Utf8Size(Render(cmd))
  }

  predicate Exceeds(cmd: Command, budget: Option<int>) {
    budget.Some? && LineSize(cmd) > budget.value
  }

  lemma SafeIsBare(s: string)
    requires s != "" && forall c :: c in s ==> IsSafe(c)
    ensures Quote(s) == s
  {
  }

  lemma Base64IsSafe(data: bytes)
    requires data != []
    ensures Base64.Encode(data) != "" && forall c :: c in Base64.Encode(data) ==> IsSafe(c) && c as int < 0x80
    ensures |Base64.Encode(data)| == (|data| + 2) / 3 * 4
  {
    Base64.EncodedChars(data);
    Base64.EncodedLength(data);
  }

  lemma ChunkLineSize(quoted: string, tail: string)
    ensures Utf8Size(ChunkLine(quoted, tail)) == Utf8Size("printf '%s'" + [' ']) + Utf8Size(quoted) + 1 + Utf8Size(tail)
  {
    Utf8SizeAppend("printf '%s'" + [' '], quoted + [' '] + tail);
    Utf8SizeAppend(quoted + [' '], tail);
    Utf8SizeAppend(quoted, [' ']);
    AsciiSize([' ']);
  }

  lemma ChunkLineGrowth(data: bytes, tail: string)
    requires data != []
    ensures Utf8Size(ChunkLine(Quote(Base64.Encode(data)), tail)) + 2
         == Utf8Size(ChunkLine(Quote(""), tail)) + (|data| + 2) / 3 * 4
  {
    Base64IsSafe(data);
    SafeIsBare(Base64.Encode(data));
    AsciiSize(Base64.Encode(data));
    AsciiSize("''");
    ChunkLineSize(Quote(Base64.Encode(data)), tail);
    ChunkLineSize(Quote(""), tail);
  }

  /** A chunk's line is its base64 longer than the empty chunk's, less the quotes around nothing. */
  lemma ChunkSize(data: bytes, decoder: Tool, op: Op, path: string)
    requires data != []
    ensures LineSize(Chunk(Base64.Encode(data), decoder, op, path)) + 2
         == LineSize(Chunk("", decoder, op, path)) + (|data| + 2) / 3 * 4
  {
    ChunkLineGrowth(data, ChunkTail(decoder, op, path));
  }

  // ---- the target ----

  type Files = map<string, bytes>

  /** What an executed line does to the files of the target. */
  function Exec(files: Files, cmd: Command): Files {
    match cmd
    case Chunk(encoded, _, op, path) =>
      var bytes := Base64.Decode(encoded);
      var before := if op.Append? && path in files then files[path] else [];
      files[path := before + if bytes.Some? then bytes.value else []]
    case Move(source, target) =>
      if source in files && source != target then (files - {source})[target := files[source]] else files
    case Cleanup(path) => files - {path}
    case _ => files
  }
}
