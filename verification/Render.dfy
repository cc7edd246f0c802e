/** Rendering a session as Markdown with byte limits on fragments and on the whole document. */
module Render {
  import opened Text
  import opened Utf8
  import opened Sums

  const TOOL_INPUT_LIMIT: nat := 1024
  const TOOL_RESULT_LIMIT: nat := 2 * 1024
  const TEXT_LIMIT: nat := 8 * 1024
  const DOCUMENT_LIMIT: nat := 400 * 1024
  const SUFFIX := "\n[... capped ...]"

  // ---------------------------------------------------------------- capping bytes

  /** Whole characters from the first `room` bytes. */
  function Cut(value: string, room: nat): string {
    var encoded := Encode(value);
    DecodeIgnore(encoded[..if room <= |encoded| then room else |encoded|])
  }

  /** The bytes left for text once the mark is in place. */
  function Room(limit: int): nat {
    var room := limit - Size(SUFFIX);
    if room < 0 then 0 else room
  }

  function CapBytes(value: string, limit: int): (string, bool) {
    if Size(value) <= limit then (value, false) else (Cut(value, Room(limit)) + SUFFIX, true)
  }

  lemma SuffixSize()
    ensures Size(SUFFIX) == 17
  {
    SizeOfAscii(SUFFIX, 17);
  }

  /** Cutting keeps the longest run of whole characters that fits. */
  lemma CutIsLongest(value: string, room: nat, j: nat)
    requires j <= |value| && room <= Size(value)
    ensures Cut(value, room) == value[..Fit(value, room)]
    ensures Size(value[..j]) <= room <==> j <= Fit(value, room)
  {
    DecodeOfCut(value, room);
    FitIsLongest(value, room, j);
  }

  /** A text over the limit is cut to the longest run of whole characters that leaves room for
      the mark, and a text within the limit is untouched. */
  lemma CapKeepsLongest(value: string, limit: int) returns (k: nat)
    ensures CapBytes(value, limit).1 <==> Size(value) > limit
    ensures !CapBytes(value, limit).1 ==> CapBytes(value, limit).0 == value
    ensures CapBytes(value, limit).1 ==>
              && k <= |value| && CapBytes(value, limit).0 == value[..k] + SUFFIX
              && Size(value[..k]) <= Room(limit)
              && forall j :: k < j <= |value| ==> Size(value[..j]) > Room(limit)
    ensures Room(limit) == if limit < 17 then 0 else limit - 17
  {
    SuffixSize();
    if Size(value) <= limit {
      k := |value|;
    } else {
      var room := Room(limit);
      k := Fit(value, room);
      forall j | 0 <= j <= |value| ensures Size(value[..j]) <= room <==> j <= k {
        CutIsLongest(value, room, j);
      }
      CutIsLongest(value, room, k);
    }
  }

  /** The limit is respected exactly when the text fits it or the limit has room for the mark. */
  lemma CapBoundExactly(value: string, limit: int)
    ensures Size(CapBytes(value, limit).0) <= limit <==> Size(value) <= limit || limit >= 17
  {
    var k := CapKeepsLongest(value, limit);
    SuffixSize();
    if Size(value) > limit {
      SizeConcat(value[..k], SUFFIX);
    }
  }

  // --------------------------------------------------------------------- sessions

  datatype Kind = User | Assistant | Tool | Outcome

  datatype Block = Block(kind: Kind, text: string, name: Option<string>)

  datatype Session = Session(provider: string, sessionId: string, cwd: string, gitBranch: Option<string>,
                             model: Option<string>, startedAt: string, endedAt: string, title: string,
                             total: nat, kept: nat, version: string, turns: seq<seq<Block>>)

  /** The redactor: what it makes of texts and tool results, the stand-in for sensitive output,
      which tool commands are sensitive, and the redactions it has counted in the end. */
  datatype Redactor = Redactor(text: string -> string, toolResult: string -> string, sensitiveOutput: string,
                               sensitive: string -> bool, count: nat)

  datatype Meta = Meta(title: string, provider: string, sessionId: string, cwd: string, repo: Option<string>,
                       scope: string, gitBranch: Option<string>, model: Option<string>, startedAt: string,
                       endedAt: string, total: nat, kept: nat, version: string)

  function MetaText(red: Redactor, value: string): string {
    CapBytes(red.text(value), TEXT_LIMIT).0
  }

  function MetaOption(red: Redactor, value: Option<string>): Option<string> {
    if value.None? then None else Some(MetaText(red, value.value))
  }

  function MetaOf(red: Redactor, s: Session, repo: Option<string>, scope: string): Meta {
    Meta(MetaText(red, s.title), s.provider, MetaText(red, s.sessionId), MetaText(red, s.cwd), MetaOption(red, repo),
         MetaText(red, scope), MetaOption(red, s.gitBranch), MetaOption(red, s.model), MetaText(red, s.startedAt),
         MetaText(red, s.endedAt), s.total, s.kept, s.version)
  }

  /** The texts of a session that go into its header. */
  function MetaTexts(s: Session, repo: Option<string>, scope: string): seq<string> {
    [s.title, s.sessionId, s.cwd] + Given(repo) + [scope] + Given(s.gitBranch) + Given(s.model) + [s.startedAt, s.endedAt]
  }

  function Given(value: Option<string>): seq<string> {
    if value.None? then [] else [value.value]
  }

  predicate MetaCut(red: Redactor, s: Session, repo: Option<string>, scope: string) {
    exists t :: t in MetaTexts(s, repo, scope) && Size(red.text(t)) > TEXT_LIMIT
  }

  // ----------------------------------------------------------------------- blocks

  function ToolName(red: Redactor, name: Option<string>): string {
    red.text(if name.Some? && name.value != "" then name.value else "unknown")
  }

  /** The text of a block before it is capped, and its limit. */
  function Redacted(red: Redactor, block: Block): string {
    if block.kind == Outcome then red.toolResult(block.text) else red.text(block.text)
  }

  function Limit(kind: Kind): nat {
    if kind == Outcome then TOOL_RESULT_LIMIT else if kind == Tool then TOOL_INPUT_LIMIT else TEXT_LIMIT
  }

  function Label(red: Redactor, block: Block): string {
    if block.kind == Outcome then "`result:`\n"
    else if block.kind == User then "**User:** "
    else if block.kind == Assistant then "**Assistant:** "
    else "`tool: " + ToolName(red, block.name) + "` input\n"
  }

  function RenderBlock(red: Redactor, block: Block): (string, bool) {
    var (value, capped) := CapBytes(Redacted(red, block), Limit(block.kind));
    (Label(red, block) + value, capped)
  }

  /** The last tool call before block `i` was sensitive and no result has answered it yet. */
  predicate Pending(red: Redactor, blocks: seq<Block>, i: nat)
    requires i <= |blocks|
  {
    exists j :: 0 <= j < i && blocks[j].kind == Tool && red.sensitive(blocks[j].text)
      && forall k :: j < k < i ==> blocks[k].kind != Tool && blocks[k].kind != Outcome
  }

  /** A block as it is shown: the result of a sensitive command is withheld. */
  function Shown(red: Redactor, blocks: seq<Block>, i: nat): Block
    requires i < |blocks|
  {
    if blocks[i].kind == Outcome && Pending(red, blocks, i) then Block(Outcome, red.sensitiveOutput, None) else blocks[i]
  }

  function Texts(red: Redactor, blocks: seq<Block>, n: nat): seq<string>
    requires n <= |blocks|
  {
    seq(n, i requires 0 <= i < n => RenderBlock(red, Shown(red, blocks, i)).0)
  }

  predicate TurnCut(red: Redactor, blocks: seq<Block>, n: nat)
    requires n <= |blocks|
  {
    exists i :: 0 <= i < n && RenderBlock(red, Shown(red, blocks, i)).1
  }

  function Join(parts: seq<string>): string {
    if parts == [] then "" else if |parts| == 1 then parts[0] else Join(parts[..|parts| - 1]) + "\n\n" + parts[|parts| - 1]
  }

  function TurnText(red: Redactor, number: nat, blocks: seq<Block>): string {
    "## Turn " + Decimal(number) + "\n" + Join(Texts(red, blocks, |blocks|))
  }

  function TurnTexts(red: Redactor, turns: seq<seq<Block>>, n: nat): seq<string>
    requires n <= |turns|
  {
    seq(n, i requires 0 <= i < n => TurnText(red, i + 1, turns[i]))
  }

  predicate TurnsCut(red: Redactor, turns: seq<seq<Block>>, n: nat)
    requires n <= |turns|
  {
    exists i :: 0 <= i < n && TurnCut(red, turns[i], |turns[i]|)
  }

  lemma PendingStep(red: Redactor, blocks: seq<Block>, i: nat)
    requires i < |blocks|
    ensures Pending(red, blocks, i + 1)
            <==> (if blocks[i].kind == Tool then red.sensitive(blocks[i].text)
                  else blocks[i].kind != Outcome && Pending(red, blocks, i))
  {
    if blocks[i].kind == Tool {
      if red.sensitive(blocks[i].text) { assert Pending(red, blocks, i + 1); }
    } else if blocks[i].kind != Outcome {
      if Pending(red, blocks, i) {
        var j :| 0 <= j < i && blocks[j].kind == Tool && red.sensitive(blocks[j].text)
                 && forall k :: j < k < i ==> blocks[k].kind != Tool && blocks[k].kind != Outcome;
        assert forall k :: j < k < i + 1 ==> blocks[k].kind != Tool && blocks[k].kind != Outcome;
      }
    }
  }

  /** One turn, block by block. A result is withheld exactly when the last tool call before it is
      sensitive and unanswered. */
  method RenderTurn(red: Redactor, blocks: seq<Block>) returns (texts: seq<string>, capped: bool)
    ensures texts == Texts(red, blocks, |blocks|)
    ensures capped <==> TurnCut(red, blocks, |blocks|)
  {
    texts, capped := [], false;
    var sensitive := false;
    for i := 0 to |blocks|
      invariant texts == Texts(red, blocks, i) && (capped <==> TurnCut(red, blocks, i))
      invariant sensitive <==> Pending(red, blocks, i)
    {
      var block := blocks[i];
      PendingStep(red, blocks, i);
      ghost var shown := Shown(red, blocks, i);
      if block.kind == Tool {
        sensitive := red.sensitive(block.text);
      }
      if block.kind == Outcome && sensitive {
        block := Block(Outcome, red.sensitiveOutput, None);
      }
      if block.kind == Outcome {
        sensitive := false;
      }
      assert block == shown;
      var (text, cut) := RenderBlock(red, block);
      texts, capped := texts + [text], capped || cut;
    }
  }

  // --------------------------------------------------------------------- documents

  function Hex(n: nat): char
    requires n < 16
  {
    "0123456789abcdef"[n]
  }

  function EscapeChar(c: char): string {
    if c == '\"' then "\\\"" else if c == '\\' then "\\\\" else if c == '\n' then "\\n"
    else if c == '\r' then "\\r" else if c == '\t' then "\\t"
    else if c as int == 8 then "\\b" else if c as int == 12 then "\\f"
    else if c as int < 0x20 then "\\u00" + [Hex(c as int / 16), Hex(c as int % 16)]
    else [c]
  }

  function Escaped(s: string): string {
    if s == "" then "" else EscapeChar(s[0]) + Escaped(s[1..])
  }

  /** `json.dumps(value, ensure_ascii=False)`, or null. */
  function Yaml(value: Option<string>): string {
    if value.None? then "null" else "\"" + Escaped(value.value) + "\""
  }

  const FLAG := "truncated: true"

  /** One line of the header. */
  datatype Field = Field(name: string, value: string)

  /** The first `n` lines, each with its line break. */
  function Lines(fields: seq<Field>, n: nat): string
    requires n <= |fields|
  {
    if n == 0 then "" else Lines(fields, n - 1) + (fields[n - 1].name + fields[n - 1].value + "\n")
  }

  function AllLines(fields: seq<Field>): string {
    Lines(fields, |fields|)
  }

  function NameFields(m: Meta): seq<Field> {
    [ Field("---", ""),
      Field("title: ", Yaml(Some(m.title))),
      Field("provider: ", m.provider),
      Field("session_id: ", Yaml(Some(m.sessionId))),
      Field("cwd: ", Yaml(Some(m.cwd))) ]
  }

  function OriginFields(m: Meta): seq<Field> {
    [ Field("repo: ", Yaml(m.repo)),
      Field("scope: ", Yaml(Some(m.scope))),
      Field("git_branch: ", Yaml(m.gitBranch)),
      Field("model: ", Yaml(m.model)) ]
  }

  function CountFields(m: Meta, redactions: nat): seq<Field> {
    [ Field("started_at: ", Yaml(Some(m.startedAt))),
      Field("ended_at: ", Yaml(Some(m.endedAt))),
      Field("records_total: ", Decimal(m.total)),
      Field("records_kept: ", Decimal(m.kept)),
      Field("redactions: ", Decimal(redactions)) ]
  }

  function TopFields(m: Meta, redactions: nat): seq<Field> {
    NameFields(m) + OriginFields(m) + CountFields(m, redactions)
  }

  function HeaderTop(m: Meta, redactions: nat): string {
    AllLines(TopFields(m, redactions))
  }

  function HeaderRest(m: Meta): string {
    "\n" + AllLines([Field("collector_version: ", Yaml(Some(m.version))), Field("---", "")])
  }

  function Frontmatter(m: Meta, redactions: nat, truncated: bool): string {
    HeaderTop(m, redactions) + (if truncated then FLAG else "truncated: false") + HeaderRest(m)
  }

  function Body(turns: seq<string>): string {
    Join(turns) + if turns == [] then "" else "\n"
  }

  /** The two headers a document can have. */
  datatype Header = Header(clear: string, marked: string)
  {
    function With(truncated: bool): string {
      if truncated then marked else clear
    }
  }

  function HeaderOf(m: Meta, redactions: nat): Header {
    Header(Frontmatter(m, redactions, false), Frontmatter(m, redactions, true))
  }

  function Document(h: Header, turns: seq<string>, truncated: bool): string {
    h.With(truncated) + Body(turns)
  }

  predicate IsAt(s: string, t: string, i: nat) {
    i + |t| <= |s| && s[i..i + |t|] == t
  }

  predicate Contains(s: string, t: string) {
    exists i :: 0 <= i <= |s| && IsAt(s, t, i)
  }

  lemma ContainsMiddle(a: string, b: string, c: string)
    ensures Contains(a + b + c, b)
  {
    assert IsAt(a + b + c, b, |a|);
  }

  lemma MarkedContains(top: string, rest: string, body: string)
    ensures Contains(top + FLAG + rest + body, FLAG)
  {
    ContainsMiddle(top, FLAG, rest + body);
    assert top + FLAG + rest + body == top + FLAG + (rest + body);
  }

  /** A document marked truncated says so, so the last repair never has anything to do. */
  lemma FlagIsWritten(m: Meta, redactions: nat, turns: seq<string>)
    ensures Contains(Document(HeaderOf(m, redactions), turns, true), FLAG)
  {
    MarkedContains(HeaderTop(m, redactions), HeaderRest(m), Body(turns));
  }

  function SumSizes(parts: seq<string>): nat {
    if parts == [] then 0 else SumSizes(parts[..|parts| - 1]) + Size(parts[|parts| - 1])
  }

  lemma {:induction false} JoinSize(parts: seq<string>)
    ensures Size(Join(parts)) == SumSizes(parts) + if parts == [] then 0 else 2 * (|parts| - 1)
    decreases |parts|
  {
    if |parts| == 1 {
      assert parts[..0] == [];
    } else if |parts| > 1 {
      var front, last := parts[..|parts| - 1], parts[|parts| - 1];
      JoinSize(front);
      SizeConcat(Join(front) + "\n\n", last);
      SizeConcat(Join(front), "\n\n");
    }
  }

  function Separators(n: nat): nat {
    (if n == 0 then 0 else (n - 1) * 2) + 1
  }

  lemma BodySize(turns: seq<string>)
    ensures Size(Body(turns)) <= SumSizes(turns) + Separators(|turns|)
  {
    JoinSize(turns);
    if turns == [] {
      assert Body(turns) == "";
    } else {
      SizeConcat(Join(turns), "\n");
    }
  }

  lemma DocumentSize(h: Header, turns: seq<string>, truncated: bool)
    ensures Size(Document(h, turns, truncated)) <= Size(h.With(truncated)) + SumSizes(turns) + Separators(|turns|)
  {
    SizeConcat(h.With(truncated), Body(turns));
    BodySize(turns);
  }

  function CapAll(turns: seq<string>, limit: nat): seq<string> {
    seq(|turns|, i requires 0 <= i < |turns| => CapBytes(turns[i], limit).0)
  }

  lemma {:induction false} CapAllSize(turns: seq<string>, limit: nat)
    requires limit >= 17
    ensures SumSizes(CapAll(turns, limit)) <= |turns| * limit
    decreases |turns|
  {
    if turns != [] {
      var n := |turns| - 1;
      CapAllSize(turns[..n], limit);
      assert CapAll(turns, limit)[..n] == CapAll(turns[..n], limit);
      CapBoundExactly(turns[n], limit);
      OneMore(n, limit);
    }
  }

  /** The bytes each turn may have when a document is over the limit. */
  function PerTurn(header: nat, n: nat): nat {
    var budget := DOCUMENT_LIMIT - header - Separators(n);
    var share := budget / (if n == 0 then 1 else n);
    if share < 64 then 64 else share
  }

  /** A header that leaves each of `n` turns its minimum of 64 bytes. */
  predicate HeaderFits(header: nat, n: nat) {
    header + Separators(n) + 64 * n <= DOCUMENT_LIMIT
  }

  lemma TimesAtMost(n: nat, q: int)
    requires q <= 63
    ensures n * q <= n * 63
  {
  }

  lemma QuotientAtLeast(budget: int, n: nat)
    requires n > 0 && budget >= 64 * n
    ensures budget / n >= 64 && n * (budget / n) <= budget
  {
    var q, r := budget / n, budget % n;
    assert budget == n * q + r && 0 <= r < n;
    if q <= 63 {
      TimesAtMost(n, q);
    }
  }

  lemma SharesFit(header: nat, n: nat)
    requires HeaderFits(header, n)
    ensures header + Separators(n) + n * PerTurn(header, n) <= DOCUMENT_LIMIT
  {
    if n > 0 {
      QuotientAtLeast(DOCUMENT_LIMIT - header - Separators(n), n);
    }
  }

  /** A document whose turns are capped to their share. */
  function Squeezed(h: Header, turns: seq<string>): seq<string> {
    CapAll(turns, PerTurn(Size(h.marked), |turns|))
  }

  lemma SqueezedFits(h: Header, turns: seq<string>)
    ensures HeaderFits(Size(h.marked), |turns|) ==> Size(Document(h, Squeezed(h, turns), true)) <= DOCUMENT_LIMIT
  {
    var header := Size(h.marked);
    if HeaderFits(header, |turns|) {
      DocumentSize(h, Squeezed(h, turns), true);
      CapAllSize(turns, PerTurn(header, |turns|));
      SharesFit(header, |turns|);
    }
  }

  // ------------------------------------------------------------------------ render

  datatype Rendered = Rendered(markdown: string, meta: Meta, truncated: bool)

  /** The first three and last five turns around a mark. */
  function Elided(turns: seq<string>): seq<string>
    requires |turns| > 8
  {
    turns[..3] + ["[... elided " + Decimal(|turns| - 8) + " turns ...]"] + turns[|turns| - 5..]
  }

  /** The turns a document that is too large as a whole starts from. */
  function Remaining(turns: seq<string>): seq<string> {
    if |turns| > 8 then Elided(turns) else turns
  }

  /** The document: whole, or with its middle elided, or with every remaining turn capped. */
  function Final(h: Header, all: seq<string>, cut: bool): string {
    var rest := Remaining(all);
    if Size(Document(h, all, cut)) <= DOCUMENT_LIMIT then Document(h, all, cut)
    else if |all| > 8 && Size(Document(h, rest, true)) <= DOCUMENT_LIMIT then Document(h, rest, true)
    else Document(h, Squeezed(h, rest), true)
  }

  /** What fitting turns into a document promises. The header's flag is the flag returned. The flag
      is set exactly when a fragment or the document was too large. A document that is not marked is
      complete; a marked one shows all turns, or the first three and last five, or these capped
      to their share. The limit holds whenever the header leaves each remaining turn 64 bytes. */
  ghost predicate Assembled(h: Header, all: seq<string>, cut: bool, result: string, truncated: bool) {
    && (truncated <==> cut || Size(Document(h, all, cut)) > DOCUMENT_LIMIT)
    && (!truncated ==> result == Document(h, all, false))
    && (|| result == Document(h, all, truncated)
        || result == Document(h, Remaining(all), truncated)
        || result == Document(h, Squeezed(h, Remaining(all)), truncated))
    && (HeaderFits(Size(h.marked), |Remaining(all)|) ==> Size(result) <= DOCUMENT_LIMIT)
  }

  /** Fits rendered turns into one document. */
  method Assemble(h: Header, all: seq<string>, cut: bool) returns (result: string, truncated: bool)
    ensures Assembled(h, all, cut, result, truncated)
    ensures result == Final(h, all, cut)
  {
    var turns := all;
    result := Document(h, turns, cut);
    var elided := false;
    if Size(result) > DOCUMENT_LIMIT && |turns| > 8 {
      turns := Elided(turns);
      elided := true;
      result := Document(h, turns, true);
    }
    truncated := cut || elided;
    if Size(result) > DOCUMENT_LIMIT {
      truncated := true;
      SqueezedFits(h, turns);
      turns := CapAll(turns, PerTurn(Size(h.marked), |turns|));
      result := Document(h, turns, true);
    }
    if truncated && !Contains(result, FLAG) {
      result := Document(h, turns, true);
    }
  }

  /** The rendered turns and whether any of their blocks was cut. */
  method RenderTurns(red: Redactor, turns: seq<seq<Block>>) returns (texts: seq<string>, cut: bool)
    ensures texts == TurnTexts(red, turns, |turns|) && (cut <==> TurnsCut(red, turns, |turns|))
  {
    texts, cut := [], false;
    for i := 0 to |turns|
      invariant texts == TurnTexts(red, turns, i) && (cut <==> TurnsCut(red, turns, i))
    {
      var blocks, capped := RenderTurn(red, turns[i]);
      texts := texts + ["## Turn " + Decimal(i + 1) + "\n" + Join(blocks)];
      cut := cut || capped;
    }
  }

  /** A session as one Markdown document. */
  method RenderSession(red: Redactor, s: Session, repo: Option<string>, scope: string) returns (r: Rendered)
    ensures r.meta == MetaOf(red, s, repo, scope)
    ensures Assembled(HeaderOf(r.meta, red.count), TurnTexts(red, s.turns, |s.turns|),
                      MetaCut(red, s, repo, scope) || TurnsCut(red, s.turns, |s.turns|), r.markdown, r.truncated)
    ensures r.markdown == Rendering(red, HeaderOf(r.meta, red.count), s.turns, MetaCut(red, s, repo, scope))
    ensures Sober(red, s, repo, scope) ==> Size(r.markdown) <= DOCUMENT_LIMIT
  {
    var meta := MetaOf(red, s, repo, scope);
    var texts, cut := RenderTurns(red, s.turns);
    var markdown, truncated := Assemble(HeaderOf(meta, red.count), texts, MetaCut(red, s, repo, scope) || cut);
    if Sober(red, s, repo, scope) {
      SoberSessionFits(red, s, repo, scope, texts, MetaCut(red, s, repo, scope) || cut);
    }
    r := Rendered(markdown, meta, truncated);
  }

  // ---------------------------------------------------- the limit, for all turns at once

  lemma DocumentSizeExactly(h: Header, turns: seq<string>, truncated: bool)
    ensures Size(Document(h, turns, truncated))
         == Size(h.With(truncated)) + if turns == [] then 0 else SumSizes(turns) + Separators(|turns|)
  {
    SizeConcat(h.With(truncated), Body(turns));
    JoinSize(turns);
    if turns == [] {
      assert Body(turns) == "";
    } else {
      SizeConcat(Join(turns), "\n");
    }
  }

  /** The mark of an elision among `n` turns. */
  function ElisionMark(n: nat): string
    requires n > 8
  {
    "[... elided " + Decimal(n - 8) + " turns ...]"
  }

  /** What the turns of an `n`-turn session take in the worst case: 64 bytes for each that remains,
      less if the mark of the elision is shorter. */
  function Least(n: nat): nat {
    if n == 0 then 0
    else if n <= 8 then Separators(n) + 64 * n
    else Separators(9) + 512 + Min(64, Size(ElisionMark(n)))
  }

  lemma CappedSize(turn: string)
    ensures Size(CapBytes(turn, 64).0) <= Min(64, Size(turn)) || Size(turn) > 64
    ensures Size(CapBytes(turn, 64).0) <= 64
  {
    var k := CapKeepsLongest(turn, 64);
    CapBoundExactly(turn, 64);
  }

  lemma {:induction false} SumConcat(a: seq<string>, b: seq<string>)
    ensures SumSizes(a + b) == SumSizes(a) + SumSizes(b)
    decreases |b|
  {
    if b == [] {
      assert a + b == a;
    } else {
      assert (a + b)[..|a + b| - 1] == a + b[..|b| - 1];
      SumConcat(a, b[..|b| - 1]);
    }
  }

  lemma CapAllConcat(a: seq<string>, b: seq<string>, limit: nat)
    ensures CapAll(a + b, limit) == CapAll(a, limit) + CapAll(b, limit)
  {
  }

  /** What an elided document takes when every turn is capped to 64 bytes. */
  lemma ElidedSum(all: seq<string>)
    requires |all| > 8
    ensures SumSizes(CapAll(Elided(all), 64))
         == SumSizes(CapAll(all[..3], 64)) + Size(CapBytes(ElisionMark(|all|), 64).0) + SumSizes(CapAll(all[|all| - 5..], 64))
  {
    var front, mark, back := all[..3], [ElisionMark(|all|)], all[|all| - 5..];
    assert Elided(all) == front + mark + back;
    CapAllConcat(front + mark, back, 64);
    CapAllConcat(front, mark, 64);
    SumConcat(CapAll(front, 64) + CapAll(mark, 64), CapAll(back, 64));
    SumConcat(CapAll(front, 64), CapAll(mark, 64));
    assert CapAll(mark, 64)[..0] == [];
  }

  lemma ElidedFits(h: Header, all: seq<string>)
    requires |all| > 8 && Size(h.marked) + Least(|all|) <= DOCUMENT_LIMIT
    ensures Size(Document(h, Squeezed(h, Elided(all)), true)) <= DOCUMENT_LIMIT
  {
    SqueezedFits(h, Elided(all));
    if !HeaderFits(Size(h.marked), 9) {
      assert PerTurn(Size(h.marked), 9) == 64;
      ElidedSum(all);
      CapAllSize(all[..3], 64);
      CapAllSize(all[|all| - 5..], 64);
      CappedSize(ElisionMark(|all|));
      DocumentSizeExactly(h, Squeezed(h, Elided(all)), true);
    }
  }

  lemma LimitHolds(h: Header, all: seq<string>, cut: bool)
    requires Size(h.marked) + Least(|all|) <= DOCUMENT_LIMIT
    ensures Size(Final(h, all, cut)) <= DOCUMENT_LIMIT
  {
    if |all| == 0 {
      DocumentSizeExactly(h, Squeezed(h, all), true);
    } else if |all| <= 8 {
      SqueezedFits(h, all);
    } else {
      ElidedFits(h, all);
    }
  }

  // ------------------------------------------------------------- turns that are too long

  predicate Ascii(s: string) {
    forall i :: 0 <= i < |s| ==> s[i] as int < 0x80
  }

  lemma AsciiSize(s: string, k: nat)
    requires Ascii(s) && k <= |s|
    ensures Size(s[..k]) == k
  {
    SizeOfAscii(s[..k], k);
  }

  /** A long plain text is capped to exactly the limit. */
  lemma AsciiCapped(s: string)
    requires Ascii(s) && |s| > 64
    ensures Size(CapBytes(s, 64).0) == 64
  {
    SizeOfAscii(s, |s|);
    SuffixSize();
    var k := CapKeepsLongest(s, 64);
    AsciiSize(s, k);
    AsciiSize(s, 47);
    assert k >= 47;
    SizeConcat(s[..k], SUFFIX);
  }

  /** Every turn is plain and does not fit a document by itself. */
  ghost predicate AllLong(turns: seq<string>) {
    forall i :: 0 <= i < |turns| ==> Ascii(turns[i]) && |turns[i]| > DOCUMENT_LIMIT
  }

  lemma {:induction false} LongTurnsCapped(turns: seq<string>)
    requires AllLong(turns)
    ensures SumSizes(CapAll(turns, 64)) == 64 * |turns|
    decreases |turns|
  {
    if turns != [] {
      var n := |turns| - 1;
      LongTurnsCapped(turns[..n]);
      AsciiCapped(turns[n]);
      assert CapAll(turns, 64)[..n] == CapAll(turns[..n], 64);
    }
  }

  /** Any document that shows one long turn is over the limit. */
  lemma LongIsOver(h: Header, turns: seq<string>, truncated: bool)
    requires |turns| > 0 && Ascii(turns[|turns| - 1]) && |turns[|turns| - 1]| > DOCUMENT_LIMIT
    ensures Size(Document(h, turns, truncated)) > DOCUMENT_LIMIT
  {
    SizeOfAscii(turns[|turns| - 1], |turns[|turns| - 1]|);
    DocumentSizeExactly(h, turns, truncated);
  }

  lemma FewLongTurnsFail(h: Header, all: seq<string>, cut: bool)
    requires AllLong(all) && 0 < |all| <= 8 && Size(h.marked) + Least(|all|) > DOCUMENT_LIMIT
    ensures Size(Final(h, all, cut)) > DOCUMENT_LIMIT
  {
    LongIsOver(h, all, cut);
    assert PerTurn(Size(h.marked), |all|) == 64;
    DocumentSizeExactly(h, CapAll(all, 64), true);
    LongTurnsCapped(all);
  }

  lemma ElisionMarkCapped(n: nat)
    requires n > 8
    ensures Size(CapBytes(ElisionMark(n), 64).0) == Min(64, Size(ElisionMark(n)))
  {
    MarkCapped(ElisionMark(n));
  }

  lemma ManyLongTurnsSum(all: seq<string>)
    requires AllLong(all) && |all| > 8
    ensures SumSizes(CapAll(Elided(all), 64)) == 512 + Min(64, Size(ElisionMark(|all|)))
  {
    ElidedSum(all);
    LongTurnsCapped(all[..3]);
    LongTurnsCapped(all[|all| - 5..]);
    ElisionMarkCapped(|all|);
  }

  lemma ManyLongTurnsFail(h: Header, all: seq<string>, cut: bool)
    requires AllLong(all) && |all| > 8 && Size(h.marked) + Least(|all|) > DOCUMENT_LIMIT
    ensures Size(Final(h, all, cut)) > DOCUMENT_LIMIT
  {
    var rest := Elided(all);
    LongIsOver(h, all, cut);
    assert rest[|rest| - 1] == all[|all| - 1];
    LongIsOver(h, rest, true);
    assert PerTurn(Size(h.marked), 9) == 64;
    DocumentSizeExactly(h, CapAll(rest, 64), true);
    ManyLongTurnsSum(all);
  }

  lemma MarkCapped(mark: string)
    requires Ascii(mark)
    ensures Size(CapBytes(mark, 64).0) == Min(64, Size(mark))
  {
    SizeOfAscii(mark, |mark|);
    if |mark| > 64 {
      AsciiCapped(mark);
    }
  }

  /** A turn of many messages of the user that say nothing. */
  function Idle(m: nat): seq<Block> {
    seq(m, _ => Block(User, "", None))
  }

  lemma {:induction false} JoinIsLong(parts: seq<string>)
    requires forall i :: 0 <= i < |parts| ==> Ascii(parts[i]) && parts[i] != ""
    ensures Ascii(Join(parts)) && |Join(parts)| >= |parts|
    decreases |parts|
  {
    if |parts| > 1 {
      JoinIsLong(parts[..|parts| - 1]);
    }
  }

  lemma IdleText(red: Redactor, m: nat, i: nat)
    requires red.text("") == "" && i < m
    ensures Texts(red, Idle(m), m)[i] == "**User:** "
  {
    assert Redacted(red, Idle(m)[i]) == "" && CapBytes("", TEXT_LIMIT).0 == "";
  }

  lemma IdleIsLong(red: Redactor, number: nat, m: nat)
    requires red.text("") == ""
    ensures Ascii(TurnText(red, number, Idle(m))) && |TurnText(red, number, Idle(m))| > m
  {
    var texts := Texts(red, Idle(m), m);
    forall i | 0 <= i < m ensures Ascii(texts[i]) && texts[i] != "" {
      IdleText(red, m, i);
    }
    JoinIsLong(texts);
  }

  function IdleTurns(n: nat): seq<seq<Block>> {
    seq(n, _ => Idle(DOCUMENT_LIMIT))
  }

  lemma IdleTurnsAreLong(red: Redactor, n: nat)
    requires red.text("") == ""
    ensures AllLong(TurnTexts(red, IdleTurns(n), n))
  {
    forall i | 0 <= i < n
      ensures Ascii(TurnTexts(red, IdleTurns(n), n)[i]) && |TurnTexts(red, IdleTurns(n), n)[i]| > DOCUMENT_LIMIT
    {
      IdleIsLong(red, i + 1, DOCUMENT_LIMIT);
    }
  }

  lemma LongTurnsFail(h: Header, all: seq<string>, cut: bool)
    requires AllLong(all) && Size(h.marked) <= Size(h.clear) && Size(h.marked) + Least(|all|) > DOCUMENT_LIMIT
    ensures Size(Final(h, all, cut)) > DOCUMENT_LIMIT
  {
    if |all| > 8 {
      ManyLongTurnsFail(h, all, cut);
    } else if all != [] {
      FewLongTurnsFail(h, all, cut);
    } else {
      DocumentSizeExactly(h, [], true);
      DocumentSizeExactly(h, [], cut);
      assert Squeezed(h, []) == [];
    }
  }

  /** The document of a session with these turns, given whether its metadata was cut. */
  function Rendering(red: Redactor, h: Header, turns: seq<seq<Block>>, cut: bool): string {
    Final(h, TurnTexts(red, turns, |turns|), cut || TurnsCut(red, turns, |turns|))
  }

  /** The limit exactly: a header leaves every session of `n` turns within the limit, whatever its
      turns say, if and only if header, separators and 64 bytes for each remaining turn fit. This
      holds for every redactor that puts nothing in the place of nothing. */
  lemma LimitExactly(red: Redactor, h: Header, n: nat, cut: bool)
    requires Size(h.marked) <= Size(h.clear) && red.text("") == ""
    ensures (forall turns :: |turns| == n ==> Size(Rendering(red, h, turns, cut)) <= DOCUMENT_LIMIT)
            <==> Size(h.marked) + Least(n) <= DOCUMENT_LIMIT
  {
    if Size(h.marked) + Least(n) <= DOCUMENT_LIMIT {
      forall turns | |turns| == n ensures Size(Rendering(red, h, turns, cut)) <= DOCUMENT_LIMIT {
        LimitHolds(h, TurnTexts(red, turns, n), cut || TurnsCut(red, turns, n));
      }
    } else {
      var turns := IdleTurns(n);
      IdleTurnsAreLong(red, n);
      LongTurnsFail(h, TurnTexts(red, turns, n), cut || TurnsCut(red, turns, n));
      assert |turns| == n && Size(Rendering(red, h, turns, cut)) > DOCUMENT_LIMIT;
    }
  }

  // ------------------------------------------------------------- the size of the header

  function FieldSize(f: Field): nat {
    Size(f.name) + Size(f.value) + 1
  }

  function FieldSizes(fields: seq<Field>, n: nat): nat
    requires n <= |fields|
  {
    if n == 0 then 0 else FieldSizes(fields, n - 1) + FieldSize(fields[n - 1])
  }

  lemma PlainCharacter(s: string)
    requires |s| == 1 && s[0] as int < 0x80
    ensures Size(s) == 1
  {
    SizeOfAscii(s, 1);
  }

  lemma {:induction false} LinesSize(fields: seq<Field>, n: nat)
    requires n <= |fields|
    ensures Size(Lines(fields, n)) == FieldSizes(fields, n)
  {
    if n > 0 {
      var f := fields[n - 1];
      LinesSize(fields, n - 1);
      SizeConcat(Lines(fields, n - 1), f.name + f.value + "\n");
      SizeConcat(f.name + f.value, "\n");
      SizeConcat(f.name, f.value);
      PlainCharacter("\n");
    }
  }

  lemma {:induction false} FieldsAtMost(fields: seq<Field>, n: nat, bound: nat)
    requires n <= |fields| && forall i :: 0 <= i < n ==> FieldSize(fields[i]) <= bound
    ensures FieldSizes(fields, n) <= n * bound
  {
    if n > 0 {
      FieldsAtMost(fields, n - 1, bound);
      OneMore(n - 1, bound);
    }
  }

  /** A control character that JSON writes in six bytes. */
  predicate SixBytes(c: char) {
    c as int < 0x20 && c as int !in {8, 9, 10, 12, 13}
  }

  lemma {:induction false} EscapedAtMostDoubles(s: string)
    requires forall i :: 0 <= i < |s| ==> !SixBytes(s[i])
    ensures Size(Escaped(s)) <= 2 * Size(s)
    decreases |s|
  {
    if s != "" {
      EscapedAtMostDoubles(s[1..]);
      SizeConcat(EscapeChar(s[0]), Escaped(s[1..]));
      SizeFront(s);
      EscapeCharSize(s[0]);
    }
  }

  lemma EscapeCharSize(c: char)
    requires !SixBytes(c)
    ensures Size(EscapeChar(c)) <= 2 * Width(c)
  {
    var e := EscapeChar(c);
    if |e| == 2 {
      SizeOfAscii(e, 2);
    } else {
      assert e == [c] && SizeTo(e, 0) == 0;
    }
  }

  lemma YamlSize(value: string)
    ensures Size(Yaml(Some(value))) == Size(Escaped(value)) + 2
  {
    SizeConcat("\"" + Escaped(value), "\"");
    SizeConcat("\"", Escaped(value));
    PlainCharacter("\"");
  }

  /** The marked header is the shorter one. */
  lemma MarkedIsShorter(m: Meta, redactions: nat)
    ensures Size(HeaderOf(m, redactions).marked) + 1 == Size(HeaderOf(m, redactions).clear)
  {
    var top, rest := HeaderTop(m, redactions), HeaderRest(m);
    MiddleSize(top, FLAG, rest);
    MiddleSize(top, "truncated: false", rest);
    FlagSizes();
  }

  lemma FlagSizes()
    ensures Size(FLAG) == 15 && Size("truncated: false") == 16
  {
    AsciiSize(FLAG, 15);
    assert FLAG[..15] == FLAG;
    var clear := "truncated: false";
    assert Ascii(clear);
    AsciiSize(clear, 16);
    assert clear[..16] == clear;
  }

  lemma MiddleSize(a: string, b: string, c: string)
    ensures Size(a + b + c) == Size(a) + Size(b) + Size(c)
  {
    SizeConcat(a + b, c);
    SizeConcat(a, b);
  }

  // ------------------------------------------------------------------- sober metadata

  predicate Clean(s: string) {
    forall i :: 0 <= i < |s| ==> !SixBytes(s[i])
  }

  /** Metadata without control characters that JSON spells out, and a provider, a version and counts
      of at most ten thousand characters. */
  predicate Sober(red: Redactor, s: Session, repo: Option<string>, scope: string) {
    && (forall t :: t in MetaTexts(s, repo, scope) ==> Clean(red.text(t)))
    && Size(s.provider) <= 10_000 && Size(Escaped(s.version)) <= 10_000
    && |Decimal(s.total)| <= 10_000 && |Decimal(s.kept)| <= 10_000 && |Decimal(red.count)| <= 10_000
  }

  lemma CapIsClean(value: string)
    requires Clean(value)
    ensures Clean(CapBytes(value, TEXT_LIMIT).0) && Size(CapBytes(value, TEXT_LIMIT).0) <= TEXT_LIMIT
  {
    var k := CapKeepsLongest(value, TEXT_LIMIT);
    CapBoundExactly(value, TEXT_LIMIT);
    SuffixIsClean();
  }

  lemma SuffixIsClean()
    ensures Clean(SUFFIX)
  {
  }

  const YAML_LIMIT: nat := 2 * TEXT_LIMIT + 2

  lemma YamlIsSmall(red: Redactor, value: string)
    requires Clean(red.text(value))
    ensures Size(Yaml(Some(MetaText(red, value)))) <= YAML_LIMIT
  {
    CapIsClean(red.text(value));
    EscapedAtMostDoubles(MetaText(red, value));
    YamlSize(MetaText(red, value));
  }

  lemma OptionIsSmall(red: Redactor, value: Option<string>)
    requires value.Some? ==> Clean(red.text(value.value))
    ensures Size(Yaml(MetaOption(red, value))) <= YAML_LIMIT
  {
    if value.Some? {
      YamlIsSmall(red, value.value);
    } else {
      SizeOfAscii("null", 4);
    }
  }

  lemma DecimalSize(n: nat)
    ensures Size(Decimal(n)) == |Decimal(n)|
  {
    SizeOfAscii(Decimal(n), |Decimal(n)|);
  }

  lemma TextsAreClean(red: Redactor, s: Session, repo: Option<string>, scope: string)
    requires Sober(red, s, repo, scope)
    ensures Clean(red.text(s.title)) && Clean(red.text(s.sessionId)) && Clean(red.text(s.cwd)) && Clean(red.text(scope))
    ensures Clean(red.text(s.startedAt)) && Clean(red.text(s.endedAt))
    ensures (repo.Some? ==> Clean(red.text(repo.value))) && (s.gitBranch.Some? ==> Clean(red.text(s.gitBranch.value)))
    ensures s.model.Some? ==> Clean(red.text(s.model.value))
  {
    var texts := MetaTexts(s, repo, scope);
    assert s.title in texts && s.sessionId in texts && s.cwd in texts && scope in texts;
    assert s.startedAt in texts && s.endedAt in texts;
    assert repo.Some? ==> repo.value in Given(repo) && repo.value in texts;
    assert s.gitBranch.Some? ==> s.gitBranch.value in Given(s.gitBranch) && s.gitBranch.value in texts;
    assert s.model.Some? ==> s.model.value in Given(s.model) && s.model.value in texts;
  }

  const LINE: nat := 20_000

  /** Every value of a sober header is small. */
  ghost predicate SmallValues(m: Meta, redactions: nat) {
    && Size(Yaml(Some(m.title))) <= YAML_LIMIT && Size(Yaml(Some(m.sessionId))) <= YAML_LIMIT
    && Size(Yaml(Some(m.cwd))) <= YAML_LIMIT && Size(Yaml(m.repo)) <= YAML_LIMIT && Size(Yaml(Some(m.scope))) <= YAML_LIMIT
    && Size(Yaml(m.gitBranch)) <= YAML_LIMIT && Size(Yaml(m.model)) <= YAML_LIMIT
    && Size(Yaml(Some(m.startedAt))) <= YAML_LIMIT && Size(Yaml(Some(m.endedAt))) <= YAML_LIMIT
    && Size(m.provider) <= YAML_LIMIT && Size(Yaml(Some(m.version))) <= YAML_LIMIT
    && Size(Decimal(m.total)) <= YAML_LIMIT && Size(Decimal(m.kept)) <= YAML_LIMIT && Size(Decimal(redactions)) <= YAML_LIMIT
  }

  lemma SoberIsSmall(red: Redactor, s: Session, repo: Option<string>, scope: string)
    requires Sober(red, s, repo, scope)
    ensures SmallValues(MetaOf(red, s, repo, scope), red.count)
  {
    TextsAreClean(red, s, repo, scope);
    YamlIsSmall(red, s.title);
    YamlIsSmall(red, s.sessionId);
    YamlIsSmall(red, s.cwd);
    OptionIsSmall(red, repo);
    YamlIsSmall(red, scope);
    OptionIsSmall(red, s.gitBranch);
    OptionIsSmall(red, s.model);
    YamlIsSmall(red, s.startedAt);
    YamlIsSmall(red, s.endedAt);
    YamlSize(s.version);
    DecimalSize(s.total);
    DecimalSize(s.kept);
    DecimalSize(red.count);
  }

  predicate ShortName(f: Field) {
    |f.name| <= 20 && Ascii(f.name)
  }

  lemma SmallField(f: Field)
    requires ShortName(f) && Size(f.value) <= YAML_LIMIT
    ensures FieldSize(f) <= LINE
  {
    SizeOfAscii(f.name, |f.name|);
  }

  predicate SmallFields(fields: seq<Field>) {
    forall i :: 0 <= i < |fields| ==> ShortName(fields[i]) && Size(fields[i].value) <= YAML_LIMIT
  }

  lemma SmallLines(fields: seq<Field>)
    requires SmallFields(fields)
    ensures Size(AllLines(fields)) <= |fields| * LINE
  {
    forall i | 0 <= i < |fields| ensures FieldSize(fields[i]) <= LINE {
      SmallField(fields[i]);
    }
    FieldsAtMost(fields, |fields|, LINE);
    LinesSize(fields, |fields|);
  }

  lemma SmallNames(m: Meta, redactions: nat)
    requires SmallValues(m, redactions)
    ensures SmallFields(NameFields(m))
  {
    assert Size("") <= YAML_LIMIT;
  }

  lemma SmallOrigins(m: Meta, redactions: nat)
    requires SmallValues(m, redactions)
    ensures SmallFields(OriginFields(m))
  {
  }

  lemma SmallCounts(m: Meta, redactions: nat)
    requires SmallValues(m, redactions)
    ensures SmallFields(CountFields(m, redactions))
  {
  }

  lemma SmallJoined(a: seq<Field>, b: seq<Field>, c: seq<Field>)
    requires SmallFields(a) && SmallFields(b) && SmallFields(c)
    ensures Size(AllLines(a + b + c)) <= (|a| + |b| + |c|) * LINE
  {
    SmallLines(a + b + c);
  }

  lemma SmallTop(m: Meta, redactions: nat)
    requires SmallValues(m, redactions)
    ensures Size(HeaderTop(m, redactions)) <= 14 * LINE
  {
    SmallNames(m, redactions);
    SmallOrigins(m, redactions);
    SmallCounts(m, redactions);
    SmallJoined(NameFields(m), OriginFields(m), CountFields(m, redactions));
  }

  lemma SmallRest(m: Meta)
    requires Size(Yaml(Some(m.version))) <= YAML_LIMIT
    ensures Size(HeaderRest(m)) <= 1 + 2 * LINE
  {
    var fields := [Field("collector_version: ", Yaml(Some(m.version))), Field("---", "")];
    SmallLines(fields);
    SizeConcat("\n", AllLines(fields));
    PlainCharacter("\n");
  }

  lemma SmallHeader(m: Meta, redactions: nat)
    requires SmallValues(m, redactions)
    ensures Size(Frontmatter(m, redactions, true)) <= 16 + 16 * LINE
  {
    SmallTop(m, redactions);
    SmallRest(m);
    MiddleSize(HeaderTop(m, redactions), FLAG, HeaderRest(m));
    FlagSizes();
  }

  lemma LeastIsSmall(n: nat)
    ensures Least(n) <= 593
  {
  }

  /** A session with sober metadata is always rendered within the limit. */
  lemma SoberSessionFits(red: Redactor, s: Session, repo: Option<string>, scope: string, all: seq<string>, cut: bool)
    requires Sober(red, s, repo, scope)
    ensures Size(Final(HeaderOf(MetaOf(red, s, repo, scope), red.count), all, cut)) <= DOCUMENT_LIMIT
  {
    SoberIsSmall(red, s, repo, scope);
    SmallHeader(MetaOf(red, s, repo, scope), red.count);
    LeastIsSmall(|all|);
    LimitHolds(HeaderOf(MetaOf(red, s, repo, scope), red.count), all, cut);
  }

  // ------------------------------------------------------ metadata of control characters

  /** A text of `n` control characters. */
  function Noise(n: nat): string {
    seq(n, _ => 1 as char)
  }

  lemma {:induction false} EscapedNoise(n: nat)
    ensures Size(Escaped(Noise(n))) == 6 * n
  {
    if n > 0 {
      var s := Noise(n);
      EscapedNoise(n - 1);
      assert s[1..] == Noise(n - 1);
      SizeConcat(EscapeChar(s[0]), Escaped(s[1..]));
      AsciiSize(EscapeChar(s[0]), 6);
      assert EscapeChar(s[0])[..6] == EscapeChar(s[0]);
    }
  }

  /** Six bytes for each byte a text may have. */
  const LOUD: nat := 6 * TEXT_LIMIT

  lemma NoiseIsLoud(red: Redactor)
    requires red.text(Noise(TEXT_LIMIT)) == Noise(TEXT_LIMIT)
    ensures Size(Yaml(Some(MetaText(red, Noise(TEXT_LIMIT))))) >= LOUD
  {
    var text := Noise(TEXT_LIMIT);
    AsciiSize(text, |text|);
    assert text[..|text|] == text;
    EscapedNoise(TEXT_LIMIT);
    YamlSize(text);
  }

  predicate Loud(f: Field) {
    Size(f.value) >= LOUD
  }

  lemma {:induction false} SizesGrow(fields: seq<Field>, m: nat, n: nat)
    requires m <= n <= |fields|
    ensures FieldSizes(fields, m) <= FieldSizes(fields, n)
  {
    if m < n {
      SizesGrow(fields, m, n - 1);
    }
  }

  lemma {:induction false} LoudSizes(fields: seq<Field>, m: nat, n: nat)
    requires m <= n <= |fields| && forall i :: m <= i < n ==> Loud(fields[i])
    ensures FieldSizes(fields, n) >= FieldSizes(fields, m) + (n - m) * LOUD
  {
    if m < n {
      LoudSizes(fields, m, n - 1);
      OneMore(n - 1 - m, LOUD);
    }
  }

  /** The lines hold the loud field at `i` and those from `j` to `k`. */
  lemma LoudLines(fields: seq<Field>, i: nat, j: nat, k: nat)
    requires i < j <= k <= |fields| && Loud(fields[i]) && forall x :: j <= x < k ==> Loud(fields[x])
    ensures Size(AllLines(fields)) >= LOUD + (k - j) * LOUD
  {
    SizesGrow(fields, i + 1, j);
    LoudSizes(fields, j, k);
    SizesGrow(fields, k, |fields|);
    LinesSize(fields, |fields|);
  }

  /** The nine texts of a session's header. */
  predicate AllTexts(s: Session, repo: Option<string>, scope: string, text: string) {
    && s.title == s.sessionId == s.cwd == scope == s.startedAt == s.endedAt == text
    && repo == s.gitBranch == s.model == Some(text)
  }

  lemma LoudHeader(m: Meta, redactions: nat, text: string)
    requires m.title == m.sessionId == m.cwd == m.scope == m.startedAt == m.endedAt == text
    requires m.repo == m.gitBranch == m.model == Some(text) && Size(Yaml(Some(text))) >= LOUD
    ensures Size(HeaderTop(m, redactions)) >= 9 * LOUD
  {
    LoudLines(TopFields(m, redactions), 1, 3, 11);
  }

  lemma HeaderIsShown(h: Header, all: seq<string>, cut: bool)
    requires Size(h.marked) <= Size(h.clear)
    ensures Size(Final(h, all, cut)) >= Size(h.marked)
  {
    DocumentSizeExactly(h, all, cut);
    DocumentSizeExactly(h, Remaining(all), true);
    DocumentSizeExactly(h, Squeezed(h, Remaining(all)), true);
  }

  /** The document limit is not kept for every session: nine texts of control characters make a
      header that is over the limit alone, whatever the turns are. */
  lemma ControlCharactersOvershoot(red: Redactor, s: Session, repo: Option<string>, scope: string, all: seq<string>, cut: bool)
    requires AllTexts(s, repo, scope, Noise(TEXT_LIMIT)) && red.text(Noise(TEXT_LIMIT)) == Noise(TEXT_LIMIT)
    ensures Size(Final(HeaderOf(MetaOf(red, s, repo, scope), red.count), all, cut)) > DOCUMENT_LIMIT
  {
    var m := MetaOf(red, s, repo, scope);
    NoiseIsLoud(red);
    LoudHeader(m, red.count, MetaText(red, Noise(TEXT_LIMIT)));
    MiddleSize(HeaderTop(m, red.count), FLAG, HeaderRest(m));
    MarkedIsShorter(m, red.count);
    HeaderIsShown(HeaderOf(m, red.count), all, cut);
  }
}
