/** The managed block of a Corefile: scanner, parser, printer and splice as functions on text. The Caddyfile
    grammar itself is an unknown predicate. */
module CorefileSpec {
  import opened Replies
  import opened Text

  const START := "# BEGIN KuchDesk service aliases"
  const END := "# END KuchDesk service aliases"
  const ROOT := ".:53 {"
  const MAX_COREFILE := 0x10_0000
  const MAX_MANAGED := 64 * 1024

  datatype Fault = Unavailable | Unmanaged

  datatype Result<+T> = Success(value: T) | Failure(fault: Fault)

  datatype Alias = Alias(hostname: string, service: string, namespace: string)

  // ---------------------------------------------------------------- names

  predicate NameChar(c: char) {
    'a' <= c <= 'z' || '0' <= c <= '9'
  }

  /** The shape of one label: alphanumeric at both ends, hyphens allowed inside. */
  predicate LabelShape(s: string) {
    && s != "" && NameChar(s[0]) && NameChar(s[|s| - 1])
    && forall i | 0 <= i < |s| :: NameChar(s[i]) || s[i] == '-'
  }

  /** A DNS label in the sense of RFC 1123, section 2.1. */
  predicate IsLabel(s: string) {
    LabelShape(s) && |s| <= 63
  }

  predicate IsSubdomain(s: string) {
    |s| <= 253 && forall i | 0 <= i < |SplitDots(s)| :: LabelShape(SplitDots(s)[i])
  }

  // ---------------------------------------------------------------- the scanner

  /** The change of nesting depth by a line; quoted and escaped characters and comments do not count. */
  function BraceDelta(line: string, quote: Option<char>, escaped: bool): int {
    if line == "" then 0
    else if escaped then BraceDelta(line[1..], quote, false)
    else if line[0] == '\\' then BraceDelta(line[1..], quote, true)
    else if quote.Some? then BraceDelta(line[1..], if line[0] == quote.value then None else quote, false)
    else if line[0] == '#' then 0
    else if line[0] == '"' || line[0] == '\'' then BraceDelta(line[1..], Some(line[0]), false)
    else (if line[0] == '{' then 1 else if line[0] == '}' then -1 else 0) + BraceDelta(line[1..], None, false)
  }

  datatype Scan = Scan(
    depth: int,
    offset: nat,
    rootFound: bool,
    inRoot: bool,
    inManaged: bool,
    hasKubernetes: bool,
    hasReload: bool,
    insertAt: nat,
    blockStart: int,
    contentStart: int,
    contentEnd: int,
    blockEnd: int
  )

  const INITIAL := Scan(0, 0, false, false, false, false, false, 0, -1, -1, -1, -1)

  predicate IsRoot(s: Scan, line: string) {
    s.depth == 0 && Trim(line) == ROOT
  }

  function ScanRoot(s: Scan, line: string): Result<Scan> {
    if !IsRoot(s, line) then Success(s)
    else if s.rootFound then Failure(Unavailable)
    else Success(s.(rootFound := true, inRoot := true, insertAt := s.offset + |line|))
  }

  predicate IsMarker(line: string) {
    Trim(line) == START || Trim(line) == END
  }

  function ScanMarker(s: Scan, line: string): Result<Scan> {
    if !IsMarker(line) then Success(s)
    else if !s.inRoot || s.depth != 1 then Failure(Unmanaged)
    else if Trim(line) == START then
      if s.blockStart >= 0 then Failure(Unmanaged)
      else Success(s.(blockStart := s.offset, contentStart := s.offset + |line|, inManaged := true))
    else if s.blockStart < 0 || s.blockEnd >= 0 then Failure(Unmanaged)
    else Success(s.(contentEnd := s.offset, blockEnd := s.offset + |line|, inManaged := false))
  }

  function ScanDirective(s: Scan, line: string): Result<Scan> {
    if !s.inRoot || s.depth != 1 then Success(s)
    else
      var fields := Fields(Code(Trim(line)));
      if fields == [] then Success(s)
      else if fields[0] == "rewrite" && !s.inManaged then Failure(Unmanaged)
      else Success(s.(hasKubernetes := s.hasKubernetes || fields[0] == "kubernetes",
                      hasReload := s.hasReload || fields[0] == "reload"))
  }

  function ScanBraces(s: Scan, line: string): Result<Scan> {
    var depth := s.depth + BraceDelta(line, None, false);
    if depth < 0 then Failure(Unavailable)
    else Success(s.(depth := depth, inRoot := s.inRoot && depth != 0, offset := s.offset + |line|))
  }

  function ScanLine(s: Scan, line: string): Result<Scan> {
    var a := ScanRoot(s, line);
    if a.Failure? then a
    else
      var b := ScanMarker(a.value, line);
      if b.Failure? then b
      else
        var c := ScanDirective(b.value, line);
        if c.Failure? then c else ScanBraces(c.value, line)
  }

  function ScanText(s: Scan, text: string): Result<Scan>
    decreases |text|
  {
    if text == "" then Success(s)
    else
      var r := ScanLine(s, FirstLine(text));
      if r.Failure? then r else ScanText(r.value, OtherLines(text))
  }

  // ---------------------------------------------------------------- the parser

  /** A line that declares an alias for this cluster domain. */
  function ParseAlias(line: string, domain: string): Option<Alias> {
    var fields := Fields(line);
    if |fields| != 6 || fields[0] != "rewrite" || fields[1] != "stop" || fields[2] != "name"
       || fields[3] != "exact" then None
    else
      var parts := SplitDots(fields[5]);
      if |parts| < 5 || parts[2] != "svc" || JoinDots(parts[3..]) != domain
         || !IsLabel(parts[0]) || !IsLabel(parts[1]) || !IsSubdomain(fields[4]) then None
      else Some(Alias(fields[4], parts[0], parts[1]))
  }

  predicate Seen(aliases: seq<Alias>, hostname: string) {
    exists i :: 0 <= i < |aliases| && aliases[i].hostname == hostname
  }

  /** Reads the aliases of a text, after the ones already read. */
  function ParseLines(text: string, domain: string, aliases: seq<Alias>): Result<seq<Alias>>
    decreases |text|
  {
    if text == "" then Success(aliases)
    else
      var line := Trim(FirstLine(text));
      if line == "" then ParseLines(OtherLines(text), domain, aliases)
      else
        var a := ParseAlias(line, domain);
        if a.None? || Seen(aliases, a.value.hostname) then Failure(Unmanaged)
        else ParseLines(OtherLines(text), domain, aliases + [a.value])
  }

  function ParseManaged(text: string, domain: string): Result<seq<Alias>> {
    if |text| > MAX_MANAGED then Failure(Unmanaged) else ParseLines(text, domain, [])
  }

  // ---------------------------------------------------------------- the printer

  function TargetOf(a: Alias, domain: string): string {
    a.service + "." + a.namespace + "." + "svc" + "." + TrimDots(domain)
  }

  function RenderAlias(a: Alias, domain: string): string {
    "rewrite" + " " + "stop" + " " + "name" + " " + "exact" + " " + a.hostname + " " + TargetOf(a, domain)
  }

  function Render(aliases: seq<Alias>, domain: string): string {
    if aliases == [] then "" else RenderAlias(aliases[0], domain) + "\n" + Render(aliases[1..], domain)
  }

  // ---------------------------------------------------------------- layout and splice

  datatype Layout = Layout(insertAt: nat, blockStart: int, blockEnd: int, rendered: string, aliases: seq<Alias>)

  /** Accepts a Corefile with one root server block that has the kubernetes and reload plugins and at most
      one well-formed managed block. */
  function Inspect(corefile: string, domain: string, parses: string -> bool): Result<Layout> {
    if corefile == "" || |corefile| > MAX_COREFILE || !parses(corefile) then Failure(Unavailable)
    else
      var r := ScanText(INITIAL, corefile);
      if r.Failure? then Failure(r.fault) else Conclude(r.value, corefile, domain)
  }

  /** The positions a scan ends with are always in order, so the last branch is never taken. */
  function Conclude(s: Scan, corefile: string, domain: string): Result<Layout> {
    if !s.rootFound || s.depth != 0 || !s.hasKubernetes || !s.hasReload then Failure(Unavailable)
    else if (s.blockStart < 0) != (s.blockEnd < 0) then Failure(Unmanaged)
    else if s.blockStart < 0 then Success(Layout(s.insertAt, -1, -1, "", []))
    else if 0 <= s.contentStart <= s.contentEnd <= |corefile| then
      var p := ParseManaged(corefile[s.contentStart..s.contentEnd], domain);
      if p.Failure? then Failure(p.fault)
      else Success(Layout(s.insertAt, s.blockStart, s.blockEnd, Render(p.value, domain), p.value))
    else Failure(Unmanaged)
  }

  predicate HasCRLF(s: string) {
    exists i :: 0 <= i < |s| - 1 && s[i] == '\r' && s[i + 1] == '\n'
  }

  function Newline(corefile: string): string {
    if HasCRLF(corefile) then "\r\n" else "\n"
  }

  /** Every line of a text indented by four blanks and ended by this newline. */
  function Indent(text: string, newline: string): string
    decreases |text|
  {
    if text == "" then "" else "    " + Bare(FirstLine(text)) + newline + Indent(OtherLines(text), newline)
  }

  /** A line without its newline. */
  function Bare(line: string): string {
    if line != "" && line[|line| - 1] == '\n' then line[..|line| - 1] else line
  }

  /** The managed block for a rendering; none for the empty one. */
  function Block(rendered: string, newline: string): string {
    if rendered == "" then ""
    else "    " + START + newline + Indent(rendered, newline) + "    " + END + newline
  }

  function Splice(corefile: string, layout: Layout, block: string): string {
    if 0 <= layout.blockStart <= layout.blockEnd <= |corefile| then
      corefile[..layout.blockStart] + block + corefile[layout.blockEnd..]
    else if layout.blockStart < 0 && block != "" && layout.insertAt <= |corefile| then
      corefile[..layout.insertAt] + block + corefile[layout.insertAt..]
    else corefile
  }

  function Update(corefile: string, rendered: string, domain: string, parses: string -> bool): Result<string> {
    var l := Inspect(corefile, domain, parses);
    if l.Failure? then Failure(l.fault)
    else
      var updated := Splice(corefile, l.value, Block(rendered, Newline(corefile)));
      var check := Inspect(updated, domain, parses);
      if check.Failure? then Failure(check.fault) else Success(updated)
  }
}
