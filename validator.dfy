/**
 * The validator page of src/validator.ts: the entity decoding of the
 * example links, the outline of a parse result it draws, and the
 * valid/invalid report it shows for what the address parser returned.
 * The parser itself is a parameter: its result is an opaque record.
 */
module Validator {
  import opened JsString

  // ---------------------------------------------------------------------
  // Entity decoding

  /**
   * `s.replace(/pat/g, replacement)` for a pattern without special characters:
   * scanning left to right, every occurrence that does not overlap an
   * earlier one is replaced.
   */
  function ReplaceAll(s: string, pat: string, replacement: string): (r: string)
    requires |pat| > 0
    ensures |replacement| <= |pat| ==> |r| <= |s|
    ensures |replacement| == |pat| ==> |r| == |s|
    decreases |s|
  {
    if |s| < |pat| then s
    else if s[..|pat|] == pat then replacement + ReplaceAll(s[|pat|..], pat, replacement)
    else [s[0]] + ReplaceAll(s[1..], pat, replacement)
  }

  /** The decoding `loadExample` applies: `&quot;`, then `&lt;`, then `&gt;`. */
  function Decode(s: string): (r: string)
    ensures |r| <= |s|
  {
    ReplaceAll(ReplaceAll(ReplaceAll(s, "&quot;", "\""), "&lt;", "<"), "&gt;", ">")
  }

  /** Text that does not contain the pattern's first character has nothing to replace. */
  lemma {:induction false} ReplaceAllAbsent(s: string, pat: string, replacement: string)
    requires |pat| > 0 && pat[0] !in s
    ensures ReplaceAll(s, pat, replacement) == s
    decreases |s|
  {
    if |s| >= |pat| {
      assert s[..|pat|][0] == s[0];
      assert s[0] in s;
      ReplaceAllAbsent(s[1..], pat, replacement);
    }
  }

  /** Text without '&' decodes to itself. */
  lemma DecodeWithoutAmpersand(s: string)
    requires '&' !in s
    ensures Decode(s) == s
  {
    ReplaceAllAbsent(s, "&quot;", "\"");
    ReplaceAllAbsent(s, "&lt;", "<");
    ReplaceAllAbsent(s, "&gt;", ">");
  }

  /** The name of the entity for each character `loadExample` decodes. */
  function EntityName(c: char): string {
    if c == '"' then "quot" else if c == '<' then "lt" else "gt"
  }

  /** The entity that stands for a character in the page's markup: `&quot;`, `&lt;` or `&gt;`. */
  function Entity(c: char): (e: string)
    ensures |e| >= 4 && e[0] == '&' && '&' !in e[1..]
  {
    ['&'] + EntityName(c) + [';']
  }

  /** The characters `loadExample` decodes. */
  const Escaped: set<char> := {'"', '<', '>'}

  /** Write each character of `chars` in `s` as its entity. */
  function Escape(s: string, chars: set<char>): (r: string)
    requires chars <= Escaped
    ensures chars == {} ==> r == s
  {
    if s == [] then []
    else (if s[0] in chars then Entity(s[0]) else [s[0]]) + Escape(s[1..], chars)
  }

  /** A replacement scan replaces an occurrence at the front and carries on after it. */
  lemma ReplaceAllMatch(pat: string, x: string, replacement: string)
    requires |pat| > 0
    ensures ReplaceAll(pat + x, pat, replacement) == replacement + ReplaceAll(x, pat, replacement)
  {
    assert (pat + x)[..|pat|] == pat;
    assert (pat + x)[|pat|..] == x;
  }

  /** A replacement scan steps over one character at which no occurrence begins. */
  lemma ReplaceAllStep(c: char, x: string, pat: string, replacement: string)
    requires |pat| > 0
    requires !StartsWith([c] + x, pat)
    ensures ReplaceAll([c] + x, pat, replacement) == [c] + ReplaceAll(x, pat, replacement)
  {
    var s := [c] + x;
    assert s[1..] == x;
    if |s| < |pat| {
      assert ReplaceAll(x, pat, replacement) == x;
    }
  }

  /**
   * A replacement scan steps over a word in which no occurrence of the
   * pattern begins.
   */
  lemma {:induction false} ReplaceAllSkips(w: string, x: string, pat: string, replacement: string)
    requires |pat| > 0 && |w| > 0
    requires !StartsWith(w + x, pat)
    requires pat[0] !in w[1..]
    ensures ReplaceAll(w + x, pat, replacement) == w + ReplaceAll(x, pat, replacement)
    decreases |w|
  {
    var rest := w[1..];
    assert w + x == [w[0]] + (rest + x);
    ReplaceAllStep(w[0], rest + x, pat, replacement);
    if rest == [] {
      assert rest + x == x;
    } else {
      assert rest[0] in rest;
      assert (rest + x)[0] == rest[0];
      assert pat[0] !in rest[1..] by {
        assert forall d :: d in rest[1..] ==> d in rest;
      }
      ReplaceAllSkips(rest, x, pat, replacement);
      assert w == [w[0]] + rest;
    }
  }

  /** Decoding the entity of `c` steps over a different entity. */
  lemma SkipOtherEntity(d: char, c: char, x: string)
    requires d in Escaped && c in Escaped && d != c
    ensures ReplaceAll(Entity(d) + x, Entity(c), [c]) == Entity(d) + ReplaceAll(x, Entity(c), [c])
  {
    var e, pat := Entity(d), Entity(c);
    assert e[1] == EntityName(d)[0];
    assert pat[1] == EntityName(c)[0];
    assert (e + x)[1] == e[1] != pat[1];
    ReplaceAllSkips(e, x, pat, [c]);
  }

  /**
   * Decoding one entity undoes its escaping and leaves the other entities
   * in place.
   */
  lemma {:induction false} DecodeStage(s: string, chars: set<char>, c: char)
    requires chars <= Escaped && c in chars && '&' !in s
    ensures ReplaceAll(Escape(s, chars), Entity(c), [c]) == Escape(s, chars - {c})
  {
    var pat := Entity(c);
    if s == [] {
      assert ReplaceAll([], pat, [c]) == [];
    } else {
      var head, rest := s[0], Escape(s[1..], chars);
      assert head in s;
      assert '&' !in s[1..] by {
        assert forall d :: d in s[1..] ==> d in s;
      }
      DecodeStage(s[1..], chars, c);
      if head == c {
        ReplaceAllMatch(pat, rest, [c]);
      } else if head in chars {
        SkipOtherEntity(head, c, rest);
      } else {
        ReplaceAllStep(head, rest, pat, [c]);
      }
    }
  }

  /**
   * Decoding inverts the escaping of the three characters in any text
   * that has no '&' of its own.
   */
  lemma DecodeEscape(s: string)
    requires '&' !in s
    ensures Decode(Escape(s, Escaped)) == s
  {
    EntityTexts();
    var e := Escape(s, Escaped);
    DecodeStage(s, Escaped, '"');
    assert Escaped - {'"'} == {'<', '>'};
    var e1 := Escape(s, {'<', '>'});
    DecodeStage(s, {'<', '>'}, '<');
    assert {'<', '>'} - {'<'} == {'>'};
    var e2 := Escape(s, {'>'});
    DecodeStage(s, {'>'}, '>');
    assert {'>'} - {'>'} == {};
    calc {
      Decode(e);
      ReplaceAll(ReplaceAll(ReplaceAll(e, "&quot;", "\""), "&lt;", "<"), "&gt;", ">");
      ReplaceAll(ReplaceAll(e1, "&lt;", "<"), "&gt;", ">");
      ReplaceAll(e2, "&gt;", ">");
      s;
    }
  }

  /** The three entities, spelled out. */
  lemma EntityTexts()
    ensures Entity('"') == "&quot;" && Entity('<') == "&lt;" && Entity('>') == "&gt;"
  {
  }

  // ---------------------------------------------------------------------
  // The parse result and its outline

  /** What the address parser reports; every field may be missing. */
  datatype ParseResult = ParseResult(
    name: Option<string>,
    address: Option<string>,
    local: Option<string>,
    domain: Option<string>,
    kind: Option<string>,    // the result's `type`
    format: Option<string>)

  /** `data[prop]` for the two extra properties the outline reads. */
  function Property(data: ParseResult, prop: string): Option<string> {
    if prop == "type" then data.kind
    else if prop == "format" then data.format
    else None
  }

  /** ASCII upper case of one character. */
  function ToUpper(c: char): char {
    if 'a' <= c <= 'z' then (c as int - 32) as char else c
  }

  /** `prop.charAt(0).toUpperCase() + prop.slice(1)` */
  function Capitalize(s: string): (t: string)
    ensures |t| == |s|
    ensures |s| > 0 ==> t[1..] == s[1..] && t[0] == ToUpper(s[0])
  {
    if s == [] then [] else [ToUpper(s[0])] + s[1..]
  }

  /** The extra properties get their labels by capitalising their keys. */
  lemma ExtraLabels()
    ensures Capitalize("type") == "Type"
    ensures Capitalize("format") == "Format"
  {
  }

  /** One box of the outline: its class, its label and its value. */
  datatype AstNode = AstNode(cssClass: string, caption: string, value: string)

  /** The outline: the address box and the boxes inside it; or the error box. */
  datatype AstView = AstTree(root: AstNode, children: seq<AstNode>) | ErrorNode(caption: string, value: string)

  /** The address box: the address, or "N/A" when it is missing or empty. */
  function RootNode(data: ParseResult): AstNode {
    AstNode("ast-node email-address", "Email Address", if Truthy(data.address) then data.address.value else "N/A")
  }

  /** The display-name box, when the result has a name: the name in double quotes. */
  function NameNode(data: ParseResult): Option<AstNode> {
    if Truthy(data.name) then Some(AstNode("ast-node display-name", "Display Name", "\"" + data.name.value + "\""))
    else None
  }

  /** The box for a part of the address, when the part is present and non-empty. */
  function PartNode(part: Option<string>, cssClass: string, caption: string): Option<AstNode> {
    if Truthy(part) then Some(AstNode(cssClass, caption, part.value)) else None
  }

  /** The box for an extra property, when present and non-empty, labelled by its capitalised key. */
  function ExtraNode(data: ParseResult, prop: string): Option<AstNode> {
    var v := Property(data, prop);
    if Truthy(v) then Some(AstNode("ast-node", Capitalize(prop), v.value)) else None
  }

  /** The extra properties, in the order they are shown. */
  const AdditionalProps: seq<string> := ["type", "format"]

  /** The present boxes of a list of candidates, in order. */
  function Present(candidates: seq<Option<AstNode>>): seq<AstNode> {
    if candidates == [] then []
    else Present(candidates[..|candidates| - 1])
         + (var last := candidates[|candidates| - 1]; if last.Some? then [last.value] else [])
  }

  /** The boxes that may go inside the address box, in order. */
  function Candidates(data: ParseResult): seq<Option<AstNode>> {
    [NameNode(data),
     PartNode(data.local, "ast-node local-part", "Local Part"),
     PartNode(data.domain, "ast-node domain", "Domain")]
    + seq(|AdditionalProps|, i requires 0 <= i < |AdditionalProps| => ExtraNode(data, AdditionalProps[i]))
  }

  /** The boxes inside the address box. */
  function AstChildren(data: ParseResult): seq<AstNode> {
    Present(Candidates(data))
  }

  /** The outline of a successful parse. */
  function Outline(data: ParseResult): AstView {
    AstTree(RootNode(data), AstChildren(data))
  }

  /** Present boxes followed by one candidate. */
  lemma PresentSnoc(a: seq<Option<AstNode>>, c: Option<AstNode>)
    ensures Present(a + [c]) == Present(a) + (if c.Some? then [c.value] else [])
  {
    assert (a + [c])[..|a|] == a;
  }

  /**
   * `createASTVisualization(data, container)`: the boxes are appended one
   * by one, then the extra properties in a loop.
   */
  method CreateAstVisualization(data: ParseResult) returns (tree: AstView)
    ensures tree == Outline(data)
  {
    var emailNode := RootNode(data);
    var children: seq<AstNode> := [];
    ghost var seen: seq<Option<AstNode>> := [];
    PresentSnoc(seen, NameNode(data));
    if Truthy(data.name) {
      children := children + [AstNode("ast-node display-name", "Display Name", "\"" + data.name.value + "\"")];
    }
    seen := seen + [NameNode(data)];
    PresentSnoc(seen, PartNode(data.local, "ast-node local-part", "Local Part"));
    if Truthy(data.local) {
      children := children + [AstNode("ast-node local-part", "Local Part", data.local.value)];
    }
    seen := seen + [PartNode(data.local, "ast-node local-part", "Local Part")];
    PresentSnoc(seen, PartNode(data.domain, "ast-node domain", "Domain"));
    if Truthy(data.domain) {
      children := children + [AstNode("ast-node domain", "Domain", data.domain.value)];
    }
    seen := seen + [PartNode(data.domain, "ast-node domain", "Domain")];
    var i := 0;
    while i < |AdditionalProps|
      invariant 0 <= i <= |AdditionalProps|
      invariant seen == Candidates(data)[..3 + i]
      invariant children == Present(seen)
    {
      var prop := AdditionalProps[i];
      var value := Property(data, prop);
      PresentSnoc(seen, ExtraNode(data, prop));
      if Truthy(value) {
        children := children + [AstNode("ast-node", Capitalize(prop), value.value)];
      }
      seen := seen + [ExtraNode(data, prop)];
      i := i + 1;
    }
    assert seen == Candidates(data);
    tree := AstTree(emailNode, children);
  }

  // ---------------------------------------------------------------------
  // What the outline shows

  /** The labels of the boxes inside the address box, in the order they can appear. */
  const ChildLabels: seq<string> := ["Display Name", "Local Part", "Domain", "Type", "Format"]

  /** The field of the result each of those labels shows. */
  function Fields(data: ParseResult): seq<Option<string>> {
    [data.name, data.local, data.domain, data.kind, data.format]
  }

  /** The labels whose field is present and non-empty, in order. */
  function Kept(labels: seq<string>, fields: seq<Option<string>>): seq<string>
    requires |labels| == |fields|
  {
    if labels == [] then []
    else Kept(labels[..|labels| - 1], fields[..|fields| - 1])
         + (if Truthy(fields[|fields| - 1]) then [labels[|labels| - 1]] else [])
  }

  /** The labels of a list of boxes. */
  function Labels(nodes: seq<AstNode>): seq<string> {
    seq(|nodes|, i requires 0 <= i < |nodes| => nodes[i].caption)
  }

  /**
   * When each candidate is present exactly when its field is truthy and
   * carries its label, the present boxes carry the labels kept by the
   * fields.
   */
  lemma {:induction false} LabelsOfPresent(c: seq<Option<AstNode>>, labels: seq<string>, fields: seq<Option<string>>)
    requires |c| == |labels| == |fields|
    requires forall k :: 0 <= k < |c| ==> (c[k].Some? <==> Truthy(fields[k]))
    requires forall k :: 0 <= k < |c| && c[k].Some? ==> c[k].value.caption == labels[k]
    ensures Labels(Present(c)) == Kept(labels, fields)
    decreases |c|
  {
    if c != [] {
      var n := |c| - 1;
      LabelsOfPresent(c[..n], labels[..n], fields[..n]);
    }
  }

  /** The five candidates, one by one. */
  lemma CandidatesAt(data: ParseResult)
    ensures Candidates(data) == [NameNode(data),
      PartNode(data.local, "ast-node local-part", "Local Part"),
      PartNode(data.domain, "ast-node domain", "Domain"),
      ExtraNode(data, "type"), ExtraNode(data, "format")]
  {
  }

  /**
   * The boxes inside the address box are Display Name, Local Part, Domain,
   * Type and Format, in that order, each present exactly when its field is
   * present and non-empty.
   */
  lemma AstChildrenLabels(data: ParseResult)
    ensures Labels(AstChildren(data)) == Kept(ChildLabels, Fields(data))
  {
    ExtraLabels();
    CandidatesAt(data);
    LabelsOfPresent(Candidates(data), ChildLabels, Fields(data));
  }

  /** A present box is the value of one of the candidates. */
  lemma {:induction false} PresentMembers(c: seq<Option<AstNode>>)
    ensures forall node :: node in Present(c) ==> Some(node) in c
    decreases |c|
  {
    if c != [] {
      var init := c[..|c| - 1];
      PresentMembers(init);
      assert forall x :: x in init ==> x in c;
    }
  }

  /** Every box inside the address box shows its field, the display name in double quotes. */
  lemma AstChildrenValues(data: ParseResult)
    ensures forall node :: node in AstChildren(data) ==>
      if node.caption == "Display Name" then data.name.Some? && node.value == "\"" + data.name.value + "\""
      else if node.caption == "Local Part" then Some(node.value) == data.local
      else if node.caption == "Domain" then Some(node.value) == data.domain
      else if node.caption == "Type" then Some(node.value) == data.kind
      else node.caption == "Format" && Some(node.value) == data.format
  {
    ExtraLabels();
    CandidatesAt(data);
    PresentMembers(Candidates(data));
  }

  /** The address box is always labelled "Email Address" and shows the address or "N/A". */
  lemma RootShowsAddress(data: ParseResult)
    ensures RootNode(data).caption == "Email Address"
    ensures Truthy(data.address) ==> RootNode(data).value == data.address.value
    ensures !Truthy(data.address) ==> RootNode(data).value == "N/A"
  {
  }

  // ---------------------------------------------------------------------
  // The report

  /** The checkbox options passed to the parser with the input. */
  datatype ParseOptions = ParseOptions(input: string, rfc6532: bool, strict: bool, rejectTLD: bool)

  /** What the parser call did: returned a result (or nothing), or threw. A missing parser returns nothing. */
  datatype ParseOutcome = Returned(result: Option<ParseResult>) | Threw(message: string)

  /** The parsed-data panel: the result as highlighted JSON, or an error message. */
  datatype ParsedView = Highlighted(data: ParseResult) | ErrorMessage(text: string)

  /** What `parseEmail` writes into the results section. */
  datatype Report = Report(status: string, parsed: ParsedView, outline: AstView)

  /** The status indicator's class list: the common class and the verdict. */
  function Status(valid: bool): string {
    "status-indicator " + (if valid then "status-valid" else "status-invalid")
  }

  const ParseFailed := "Failed to parse email address"
  const ParseErrorValue := "The email address could not be parsed according to RFC 5322 specifications"

  /** The report for one parser outcome. */
  function ReportFor(outcome: ParseOutcome): Report {
    match outcome
    case Returned(Some(data)) => Report(Status(true), Highlighted(data), Outline(data))
    case Returned(None) => Report(Status(false), ErrorMessage(ParseFailed), ErrorNode("Parsing Error", ParseErrorValue))
    case Threw(message) => Report(Status(false), ErrorMessage("Error: " + message), ErrorNode("Exception", message))
  }

  /**
   * The status is valid exactly when the parser returned a result, and
   * invalid both when it returned nothing and when it threw; an outline
   * is drawn exactly for a result, and the thrown message is put in an
   * "Exception" box.
   */
  lemma StatusValidIff(outcome: ParseOutcome)
    ensures ReportFor(outcome).status == Status(outcome.Returned? && outcome.result.Some?)
    ensures ReportFor(outcome).outline.AstTree? <==> outcome.Returned? && outcome.result.Some?
    ensures outcome.Returned? && outcome.result.Some? ==> ReportFor(outcome).outline == Outline(outcome.result.value)
    ensures outcome.Threw? ==> ReportFor(outcome).outline == ErrorNode("Exception", outcome.message)
  {
  }

  /** The two statuses differ: the page tells a valid address from an invalid one. */
  lemma StatusesDiffer()
    ensures Status(true) != Status(false)
  {
    assert |Status(true)| != |Status(false)|;
  }

  // ---------------------------------------------------------------------
  // The page

  /** The validator page: its input and checkboxes, and the results section. */
  class ValidatorPage {
    var input: string
    var rfc6532: bool
    var strict: bool
    var rejectTLD: bool
    var resultsVisible: bool
    var report: Option<Report>

    constructor (input: string, rfc6532: bool, strict: bool, rejectTLD: bool)
      ensures this.input == input && this.rfc6532 == rfc6532 && this.strict == strict && this.rejectTLD == rejectTLD
      ensures !resultsVisible && report == None
    {
      this.input := input;
      this.rfc6532 := rfc6532;
      this.strict := strict;
      this.rejectTLD := rejectTLD;
      resultsVisible := false;
      report := None;
    }

    /** The options the page passes to the parser. */
    function Options(): ParseOptions
      reads this
    {
      ParseOptions(input, rfc6532, strict, rejectTLD)
    }

    /** `parseEmail()`: parse the input with the current options and show the report. */
    method ParseEmail(parse: ParseOptions -> ParseOutcome)
      modifies this
      ensures input == old(input) && rfc6532 == old(rfc6532) && strict == old(strict) && rejectTLD == old(rejectTLD)
      ensures resultsVisible
      ensures report == Some(ReportFor(parse(old(Options()))))
    {
      var outcome := parse(Options());
      resultsVisible := true;
      if outcome.Returned? && outcome.result.Some? {
        var tree := CreateAstVisualization(outcome.result.value);
        report := Some(Report(Status(true), Highlighted(outcome.result.value), tree));
      } else {
        report := Some(ReportFor(outcome));
      }
    }

    /** `loadExample(email)`: put the decoded example in the input and parse it. */
    method LoadExample(email: string, parse: ParseOptions -> ParseOutcome)
      modifies this
      ensures input == Decode(email)
      ensures rfc6532 == old(rfc6532) && strict == old(strict) && rejectTLD == old(rejectTLD)
      ensures resultsVisible
      ensures report == Some(ReportFor(parse(ParseOptions(Decode(email), old(rfc6532), old(strict), old(rejectTLD)))))
    {
      input := Decode(email);
      ParseEmail(parse);
    }
  }
}
