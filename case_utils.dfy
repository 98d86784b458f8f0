/** The text-assembly part of `generate_legal_document` (cases/utils.py):
    the numbered appellant lines, the (text, bold) paragraph list with the
    generations grouped by label, and the output file name; and
    `get_object_or_none`. */
module CaseUtils {
  import opened Wrappers
  import opened Text
  import opened CaseModels

  /** One entry of `case_text`: a paragraph's text and whether it is bold. */
  datatype Paragraph = Paragraph(text: string, bold: bool)

  /** A column value inside an f-string: Python's `str` of it. A null column
      renders as "None". */
  function Render(v: Value): string {
    match v
    case Null => "None"
    case Text(s) => s
    case Flag(b) => if b then "True" else "False"
    case Number(n) => IntString(n)
    case Ref(id) => NatString(id)
  }

  /** `getattr(row, key, '')` rendered: a column the row does not have
      renders as the empty string. */
  function Field(row: Attrs, key: string): (s: string)
    ensures key !in row ==> s == ""
    ensures key in row ==> s == Render(row[key])
  {
    if key in row then Render(row[key]) else ""
  }

  /** `getattr(case.<address>, key, '')`: with no linked address, `getattr`
      on `None` falls back to the empty string. */
  function PlaceField(addresses: map<AddressId, Attrs>, link: Option<AddressId>, key: string): (s: string)
    ensures link.None? ==> s == ""
  {
    if link.Some? && link.value in addresses then Field(addresses[link.value], key) else ""
  }

  /** Lines 49-55: the line of the appellant numbered `index`. */
  function AppellantLine(index: nat, a: Appellant): string {
    NatString(index) + ") " + AppellantDetails(a)
  }

  /** The part of an appellant line after its number: its six columns with
      the fixed wording between them. */
  function AppellantDetails(a: Appellant): string {
    Interleave(Columns(a.attrs, AppellantKeys), AppellantWording)
  }

  const AppellantKeys: seq<string> := ["name", "birth_place", "dob", "fical_code", "marital_status", "address"]
  const AppellantWording: seq<string> := [", nato/a a ", " il ", ", CF ", ", stato civile ", ", residente in "]

  /** The columns `keys` of `row`, rendered. */
  function Columns(row: Attrs, keys: seq<string>): (vs: seq<string>)
    ensures |vs| == |keys|
    ensures forall i :: 0 <= i < |keys| ==> vs[i] == Field(row, keys[i])
  {
    if |keys| == 0 then [] else [Field(row, keys[0])] + Columns(row, keys[1..])
  }

  /** An f-string: `values` with the pieces of `wording` between them. */
  function Interleave(values: seq<string>, wording: seq<string>): string
    requires |values| == |wording| + 1
  {
    if |wording| == 0 then values[0] else values[0] + wording[0] + Interleave(values[1..], wording[1..])
  }

  /** `enumerate(case.appellants.all(), start=1)`: one line per appellant,
      numbered consecutively from `start`. */
  function AppellantLines(appellants: seq<Appellant>, start: nat): (lines: seq<string>)
    ensures |lines| == |appellants|
    ensures forall k :: 0 <= k < |appellants| ==> lines[k] == AppellantLine(start + k, appellants[k])
  {
    seq(|appellants|, k requires 0 <= k < |appellants| => AppellantLine(start + k, appellants[k]))
  }

  /** A number followed by `)` can be read back from the head of a string. */
  lemma NumberedHeadInjective(i: nat, x: string, j: nat, y: string)
    requires NatString(i) + ") " + x == NatString(j) + ") " + y
    ensures i == j
  {
    assert NatString(i) + ") " + x == NatString(i) + [')'] + (" " + x);
    assert NatString(j) + ") " + y == NatString(j) + [')'] + (" " + y);
    SplitAtSeparator(NatString(i), NatString(j), ')', " " + x, " " + y);
    NatStringInjective(i, j);
  }

  /** Appellant lines with different numbers differ, whatever the appellants
      hold. */
  lemma AppellantLinesDiffer(i: nat, a: Appellant, j: nat, b: Appellant)
    requires i != j
    ensures AppellantLine(i, a) != AppellantLine(j, b)
  {
    if AppellantLine(i, a) == AppellantLine(j, b) {
      NumberedHeadInjective(i, AppellantDetails(a), j, AppellantDetails(b));
    }
  }

  /** The appellant lines of a case are numbered 1, 2, 3, ... so no two of
      them are alike. */
  lemma AppellantLinesDistinct(appellants: seq<Appellant>)
    ensures var lines := AppellantLines(appellants, 1);
      forall k, m :: 0 <= k < m < |lines| ==> lines[k] != lines[m]
  {
    var lines := AppellantLines(appellants, 1);
    forall k, m | 0 <= k < m < |lines|
      ensures lines[k] != lines[m]
    {
      AppellantLinesDiffer(1 + k, appellants[k], 1 + m, appellants[m]);
    }
  }

  /** The fixed wording around the columns in the fact paragraphs of lines
      68-81. */
  const DescentFrom := "I ricorrenti discendono direttamente ed ininterrottamente da "
  const NotNaturalisedFrom := "Il Sig. / la Sig.ra "
  const NotNaturalised := " non si è mai naturalizzato/a cittadino argentino "
    + "così come dimostra il certificato di non naturalizzazione rilasciato dalle autorità competenti della "
    + "Repubblica argentina (all.02)."
  const MarriedTo := "Si è coniugato/a con "
  const DiedOn := "Lo/La stesso/a è deceduto/a il "

  /** Lines 68-82: the heading and the four fact paragraphs. */
  function FactParagraphs(c: CaseRecord, addresses: map<AddressId, Attrs>): (ps: seq<Paragraph>)
    ensures |ps| == 5 && ps[0] == Paragraph("IN FATTO", true)
    ensures forall k :: 1 <= k < 5 ==> !ps[k].bold
  {
    var mp, gp := c.marriagePlace, c.grandParentsDop;
    [ Paragraph("IN FATTO", true),
      Paragraph(DescentFrom + Field(c.fields, "descendant") + " "
                + "nato/a a " + Field(c.fields, "des_birth_place") + " il " + Field(c.fields, "des_birth_dod") + " . (all.01).", false),
      Paragraph(NotNaturalisedFrom + Field(c.fields, "descendant") + NotNaturalised, false),
      Paragraph(MarriedTo + Field(c.fields, "descendant") + " cittadino/a " + Field(c.fields, "spouse_citizenship") + ", "
                + "il " + Field(c.fields, "marriage_date") + " a " + PlaceField(addresses, mp, "line") + ", "
                + PlaceField(addresses, mp, "state") + ", " + PlaceField(addresses, mp, "city") + ", "
                + PlaceField(addresses, mp, "state") + ", " + PlaceField(addresses, mp, "zip_code") + ", "
                + PlaceField(addresses, mp, "village") + " (all.03).", false),
      Paragraph(DiedOn + Field(c.fields, "grand_parents_dod") + " a " + PlaceField(addresses, gp, "line") + ", "
                + PlaceField(addresses, gp, "state") + ", " + PlaceField(addresses, gp, "village") + " (all.04).", false) ]
  }

  /** The fixed narrative paragraph of lines 108-121. Its wording is not
      part of this model: any string stands for it. */
  const Narrative: string

  /** The fixed wording of the request, lines 130-137. */
  const Premised := "Tutto ciò premesso, i ricorrenti come sopra generalizzati, rappresentati e difesi"
  const Request := "all'Ill.mo Tribunale adito affinché, ai sensi del secondo comma dell'art. 281 decies c.p.c., "
    + "fissi con decreto l'udienza di comparizione delle parti, e il termine non superiore a dieci giorni prima dell'udienza per la costituzione dei resistenti."

  /** `case_text.append((getattr(case, 'clause_2', ''), True))` hands the raw
      column to the document: a null column becomes an empty run. */
  function RawField(row: Attrs, key: string): (s: string)
    ensures key in row && row[key].Null? ==> s == ""
  {
    if key in row && !row[key].Null? then Render(row[key]) else ""
  }

  /** Lines 108-138: the narrative, clause 2 and the request. */
  function ClosingParagraphs(c: CaseRecord): (ps: seq<Paragraph>)
    ensures |ps| == 5 && ps[1] == Paragraph(RawField(c.fields, "clause_2"), true)
  {
    [ Paragraph(Narrative, false),
      Paragraph(RawField(c.fields, "clause_2"), true),
      Paragraph(Premised, false),
      Paragraph("RICORRONO", true),
      Paragraph(Request, false) ]
  }

  /** Lines 85-97: the heading of generation `n`. */
  function GenerationLabel(n: int): string {
    if n == 1 then "Prima Generazione"
    else if n == 2 then "Seconda Generazione"
    else if n == 3 then "Terza Generazione"
    else if n == 4 then "Quarta Generazione"
    else IntString(n) + "° Generazione"
  }

  /** The first character of a heading tells the fixed headings apart from
      each other and from the numbered ones. */
  lemma LabelHead(n: int)
    ensures 1 <= n <= 4 ==> GenerationLabel(n)[0] == "PSTQ"[n - 1]
    ensures !(1 <= n <= 4) ==> GenerationLabel(n)[0] == IntString(n)[0]
  {
  }

  /** Different generation numbers get different headings, so a group holds
      exactly the generations of one number. */
  lemma GenerationLabelInjective(a: int, b: int)
    requires GenerationLabel(a) == GenerationLabel(b)
    ensures a == b
  {
    LabelHead(a);
    LabelHead(b);
    if !(1 <= a <= 4) && !(1 <= b <= 4) {
      CancelSuffix(IntString(a), IntString(b), "° Generazione");
      IntStringInjective(a, b);
    }
  }

  /** The heading of every generation, in query order. */
  function LabelsOf(gens: seq<Generation>): (labels: seq<string>)
    ensures |labels| == |gens|
  {
    if |gens| == 0 then [] else LabelsOf(gens[..|gens| - 1]) + [GenerationLabel(gens[|gens| - 1].number)]
  }

  /** The distinct entries of `labels`, each where it first occurs: the key
      order of the insertion-ordered `generations_dict`. */
  function FirstOccurrences(labels: seq<string>): (order: seq<string>)
    ensures forall x :: x in order <==> x in labels
    ensures forall i, j :: 0 <= i < j < |order| ==> order[i] != order[j]
  {
    if |labels| == 0 then []
    else
      var before := FirstOccurrences(labels[..|labels| - 1]);
      var last := labels[|labels| - 1];
      if last in before then before else before + [last]
  }

  /** The position of the first `x` in `labels`. */
  function FirstIndex(labels: seq<string>, x: string): (k: nat)
    requires x in labels
    ensures k < |labels| && labels[k] == x
    ensures forall i :: 0 <= i < k ==> labels[i] != x
  {
    if x in labels[..|labels| - 1] then FirstIndex(labels[..|labels| - 1], x) else |labels| - 1
  }

  /** Groups come in the order their labels first occur. */
  lemma {:induction false} FirstOccurrencesInOrder(labels: seq<string>)
    ensures forall i, j :: 0 <= i < j < |FirstOccurrences(labels)| ==>
              FirstIndex(labels, FirstOccurrences(labels)[i]) < FirstIndex(labels, FirstOccurrences(labels)[j])
  {
    if |labels| > 0 {
      var prefix := labels[..|labels| - 1];
      FirstOccurrencesInOrder(prefix);
      var before := FirstOccurrences(prefix);
      var order := FirstOccurrences(labels);
      forall i, j | 0 <= i < j < |order|
        ensures FirstIndex(labels, order[i]) < FirstIndex(labels, order[j])
      {
        assert order[i] == before[i] && order[i] in prefix;
        assert FirstIndex(labels, order[i]) == FirstIndex(prefix, order[i]);
        if j < |before| {
          assert order[j] == before[j] && order[j] in prefix;
          assert FirstIndex(labels, order[j]) == FirstIndex(prefix, order[j]);
          assert FirstIndex(prefix, before[i]) < FirstIndex(prefix, before[j]);
        } else {
          assert order[j] == labels[|labels| - 1] && order[j] !in prefix;
          assert FirstIndex(labels, order[j]) == |labels| - 1;
        }
      }
    }
  }

  /** The descriptions of the generations labelled `heading`, in query order. */
  function DescsLabelled(gens: seq<Generation>, heading: string): seq<string> {
    if |gens| == 0 then []
    else
      var last := gens[|gens| - 1];
      DescsLabelled(gens[..|gens| - 1], heading) + (if GenerationLabel(last.number) == heading then [last.desc] else [])
  }

  /** A label no generation carries has no descriptions. */
  lemma {:induction false} DescsOfAbsentLabel(gens: seq<Generation>, heading: string)
    requires heading !in LabelsOf(gens)
    ensures DescsLabelled(gens, heading) == []
  {
    if |gens| > 0 {
      assert LabelsOf(gens) == LabelsOf(gens[..|gens| - 1]) + [GenerationLabel(gens[|gens| - 1].number)];
      DescsOfAbsentLabel(gens[..|gens| - 1], heading);
    }
  }

  /** How many descriptions the groups in `order` hold together. */
  function DescCount(order: seq<string>, gens: seq<Generation>): nat {
    if |order| == 0 then 0 else DescCount(order[..|order| - 1], gens) + |DescsLabelled(gens, order[|order| - 1])|
  }

  /** One more generation adds one description, to its own group when that
      group is listed. */
  lemma {:induction false} DescCountStep(order: seq<string>, gens: seq<Generation>, g: Generation)
    requires forall i, j :: 0 <= i < j < |order| ==> order[i] != order[j]
    ensures DescCount(order, gens + [g]) == DescCount(order, gens) + (if GenerationLabel(g.number) in order then 1 else 0)
  {
    assert (gens + [g])[..|gens|] == gens;
    if |order| > 0 {
      var prefix := order[..|order| - 1];
      DescCountStep(prefix, gens, g);
      assert GenerationLabel(g.number) in order <==> GenerationLabel(g.number) in prefix || GenerationLabel(g.number) == order[|order| - 1];
    }
  }

  /** Every generation contributes exactly one description line. */
  lemma {:induction false} EveryGenerationCounted(gens: seq<Generation>)
    ensures DescCount(FirstOccurrences(LabelsOf(gens)), gens) == |gens|
  {
    if |gens| > 0 {
      var prefix, g := gens[..|gens| - 1], gens[|gens| - 1];
      var heading := GenerationLabel(g.number);
      assert gens == prefix + [g];
      assert LabelsOf(gens) == LabelsOf(prefix) + [heading];
      assert LabelsOf(gens)[..|gens| - 1] == LabelsOf(prefix);
      EveryGenerationCounted(prefix);
      var before := FirstOccurrences(LabelsOf(prefix));
      DescCountStep(before, prefix, g);
      if heading !in before {
        var order := before + [heading];
        assert order[..|order| - 1] == before;
        DescsOfAbsentLabel(prefix, heading);
        assert DescsLabelled(gens, heading) == [g.desc];
      }
    }
  }

  /** One `- desc` line per description. */
  function DescLines(descs: seq<string>): (ps: seq<Paragraph>)
    ensures |ps| == |descs|
    ensures forall i :: 0 <= i < |descs| ==> ps[i] == Paragraph("- " + descs[i], false)
  {
    if |descs| == 0 then [] else DescLines(descs[..|descs| - 1]) + [Paragraph("- " + descs[|descs| - 1], false)]
  }

  /** Lines 102-105: a bold `label:` heading per group, each followed by its
      description lines. */
  function Blocks(order: seq<string>, gens: seq<Generation>): (ps: seq<Paragraph>)
    ensures |ps| == |order| + DescCount(order, gens)
  {
    if |order| == 0 then []
    else
      var heading := order[|order| - 1];
      Blocks(order[..|order| - 1], gens) + [Paragraph(heading + ":", true)] + DescLines(DescsLabelled(gens, heading))
  }

  /** The generation part of `case_text`. */
  function GroupBlock(gens: seq<Generation>): seq<Paragraph> {
    Blocks(FirstOccurrences(LabelsOf(gens)), gens)
  }

  /** The generation part holds one heading per distinct label and one line
      per generation. */
  lemma GroupBlockLength(gens: seq<Generation>)
    ensures |GroupBlock(gens)| == |FirstOccurrences(LabelsOf(gens))| + |gens|
  {
    EveryGenerationCounted(gens);
  }

  /** `order` and `groups` are `generations_dict` for the first `count`
      generations: its keys in order of first occurrence, and the
      descriptions under each. */
  ghost predicate Grouped(gens: seq<Generation>, count: nat, order: seq<string>, groups: map<string, seq<string>>)
    requires count <= |gens|
  {
    && order == FirstOccurrences(LabelsOf(gens[..count]))
    && (forall l :: l in groups <==> l in order)
    && (forall l :: l in groups ==> groups[l] == DescsLabelled(gens[..count], l))
  }

  /** What one more generation does to the labels and the key order of the
      generations before it. */
  lemma PrefixLabels(gens: seq<Generation>, i: nat)
    requires i < |gens|
    ensures var heading := GenerationLabel(gens[i].number);
      && LabelsOf(gens[..i + 1]) == LabelsOf(gens[..i]) + [heading]
      && FirstOccurrences(LabelsOf(gens[..i + 1])) ==
           if heading in LabelsOf(gens[..i]) then FirstOccurrences(LabelsOf(gens[..i]))
           else FirstOccurrences(LabelsOf(gens[..i])) + [heading]
  {
    assert gens[..i + 1][..i] == gens[..i];
    assert LabelsOf(gens[..i + 1])[..i] == LabelsOf(gens[..i]);
  }

  /** What one more generation does to the descriptions under `heading`. */
  lemma PrefixDescs(gens: seq<Generation>, i: nat, heading: string)
    requires i < |gens|
    ensures DescsLabelled(gens[..i + 1], heading) ==
              DescsLabelled(gens[..i], heading) + (if GenerationLabel(gens[i].number) == heading then [gens[i].desc] else [])
  {
    assert gens[..i + 1][..i] == gens[..i];
  }

  /** One more generation extends the key order by its label exactly when
      the label is new. */
  lemma OrderStep(gens: seq<Generation>, i: nat, order: seq<string>, groups: map<string, seq<string>>)
    requires i < |gens| && Grouped(gens, i, order, groups)
    ensures var heading := GenerationLabel(gens[i].number);
      var order' := if heading in groups then order else order + [heading];
      && order' == FirstOccurrences(LabelsOf(gens[..i + 1]))
      && forall l :: l in order' <==> l in order || l == heading
  {
    var heading := GenerationLabel(gens[i].number);
    PrefixLabels(gens, i);
    assert heading in groups <==> heading in LabelsOf(gens[..i]);
  }

  /** Filing one more generation under its label, opening the label when it
      is new, keeps each group equal to the descriptions carrying its label. */
  lemma DescsStep(gens: seq<Generation>, i: nat, order: seq<string>, groups: map<string, seq<string>>)
    requires i < |gens| && Grouped(gens, i, order, groups)
    ensures var heading := GenerationLabel(gens[i].number);
      var groups' := groups[heading := (if heading in groups then groups[heading] else []) + [gens[i].desc]];
      forall l :: l in groups' ==> groups'[l] == DescsLabelled(gens[..i + 1], l)
  {
    var heading := GenerationLabel(gens[i].number);
    var groups' := groups[heading := (if heading in groups then groups[heading] else []) + [gens[i].desc]];
    forall l | l in groups'
      ensures groups'[l] == DescsLabelled(gens[..i + 1], l)
    {
      PrefixDescs(gens, i, l);
      if l == heading && heading !in groups {
        PrefixLabels(gens, i);
        DescsOfAbsentLabel(gens[..i], heading);
      }
    }
  }

  /** Lines 91-100: build `generations_dict`, keeping its key order apart. */
  method GroupGenerations(gens: seq<Generation>) returns (order: seq<string>, groups: map<string, seq<string>>)
    ensures order == FirstOccurrences(LabelsOf(gens))
    ensures forall l :: l in groups <==> l in order
    ensures forall l :: l in groups ==> groups[l] == DescsLabelled(gens, l)
  {
    order, groups := [], map[];
    var i := 0;
    while i < |gens|
      invariant 0 <= i <= |gens|
      invariant Grouped(gens, i, order, groups)
    {
      var heading := GenerationLabel(gens[i].number);
      OrderStep(gens, i, order, groups);
      DescsStep(gens, i, order, groups);
      var descs := if heading in groups then groups[heading] else [];
      if heading !in groups {
        order := order + [heading];
      }
      groups := groups[heading := descs + [gens[i].desc]];
      i := i + 1;
    }
    assert gens[..|gens|] == gens;
  }

  lemma AppendRegroup<T>(a: seq<T>, b: seq<T>, c: seq<T>, d: seq<T>)
    ensures a + b + c + d == a + (b + c + d)
  {
  }

  /** Listing one more group appends its block. */
  lemma BlocksSnoc(order: seq<string>, gens: seq<Generation>, j: nat)
    requires j < |order|
    ensures Blocks(order[..j + 1], gens)
         == Blocks(order[..j], gens) + [Paragraph(order[j] + ":", true)] + DescLines(DescsLabelled(gens, order[j]))
  {
    assert order[..j + 1][..j] == order[..j];
  }

  /** Lines 104-105: append one `- desc` line per description. */
  method AppendDescLines(caseText: seq<Paragraph>, descs: seq<string>) returns (out: seq<Paragraph>)
    ensures out == caseText + DescLines(descs)
  {
    out := caseText;
    var m := 0;
    while m < |descs|
      invariant 0 <= m <= |descs|
      invariant out == caseText + DescLines(descs[..m])
    {
      assert descs[..m + 1][..m] == descs[..m];
      out := out + [Paragraph("- " + descs[m], false)];
      m := m + 1;
    }
    assert descs[..|descs|] == descs;
  }

  /** Lines 102-105: append each group's heading and description lines. */
  method AppendGroups(caseText: seq<Paragraph>, order: seq<string>, groups: map<string, seq<string>>,
                      ghost gens: seq<Generation>) returns (out: seq<Paragraph>)
    requires forall l :: l in order ==> l in groups && groups[l] == DescsLabelled(gens, l)
    ensures out == caseText + Blocks(order, gens)
  {
    out := caseText;
    var j := 0;
    while j < |order|
      invariant 0 <= j <= |order|
      invariant out == caseText + Blocks(order[..j], gens)
    {
      var heading := order[j];
      ghost var before := out;
      out := AppendDescLines(out + [Paragraph(heading + ":", true)], groups[heading]);
      BlocksSnoc(order, gens, j);
      AppendRegroup(caseText, Blocks(order[..j], gens), [Paragraph(heading + ":", true)], DescLines(groups[heading]));
      j := j + 1;
    }
    assert order[..|order|] == order;
  }

  /** Lines 68-138: the whole `case_text` list for a case, its address table
      and its generations in query order. */
  method CaseText(c: CaseRecord, addresses: map<AddressId, Attrs>, gens: seq<Generation>) returns (text: seq<Paragraph>)
    ensures text == FactParagraphs(c, addresses) + GroupBlock(gens) + ClosingParagraphs(c)
    ensures |text| == 10 + |FirstOccurrences(LabelsOf(gens))| + |gens|
  {
    text := FactParagraphs(c, addresses);
    var order, groups := GroupGenerations(gens);
    text := AppendGroups(text, order, groups, gens);
    text := text + ClosingParagraphs(c);
    GroupBlockLength(gens);
  }

  /** Line 190: the name the document is saved under. */
  function FileName(id: CaseId, courtNo: string): string {
    "legal_case_" + NatString(id) + "_" + courtNo + ".docx"
  }

  /** The file name of a case, with its `court_no` column rendered. */
  function CaseFileName(id: CaseId, c: CaseRecord): string {
    FileName(id, Field(c.fields, "court_no"))
  }

  /** The file name determines the case id and the court number, so two
      different cases never overwrite each other's document. */
  lemma FileNameInjective(a: CaseId, x: string, b: CaseId, y: string)
    requires FileName(a, x) == FileName(b, y)
    ensures a == b && x == y
  {
    var prefix := "legal_case_";
    assert FileName(a, x) == prefix + (NatString(a) + ['_'] + (x + ".docx"));
    assert FileName(b, y) == prefix + (NatString(b) + ['_'] + (y + ".docx"));
    assert NatString(a) + ['_'] + (x + ".docx") == FileName(a, x)[|prefix|..];
    assert NatString(b) + ['_'] + (y + ".docx") == FileName(b, y)[|prefix|..];
    SplitAtSeparator(NatString(a), NatString(b), '_', x + ".docx", y + ".docx");
    NatStringInjective(a, b);
    CancelSuffix(x, y, ".docx");
  }

  /** Documents of different cases get different file names, whatever their
      court numbers, so one case's document never replaces another's. */
  lemma CaseFileNamesDiffer(a: CaseId, c: CaseRecord, b: CaseId, d: CaseRecord)
    requires a != b
    ensures CaseFileName(a, c) != CaseFileName(b, d)
  {
    if CaseFileName(a, c) == CaseFileName(b, d) {
      FileNameInjective(a, Field(c.fields, "court_no"), b, Field(d.fields, "court_no"));
    }
  }

  /** The exception `objects.get` raises when more than one row matches. */
  datatype LookupError = MultipleObjectsReturned

  /** `get_object_or_none(model_class, **filters)` over a table and the
      filter as a predicate: no match gives `None`, one match gives that row,
      several matches propagate `MultipleObjectsReturned`. */
  ghost function GetObjectOrNone<T>(table: map<nat, T>, filter: T -> bool): (r: Result<Option<T>, LookupError>)
    ensures r == Ok(None) <==> forall id :: id in table ==> !filter(table[id])
    ensures r.Ok? && r.value.Some? ==>
              exists id :: id in table && filter(table[id]) && r.value.value == table[id]
                && forall other :: other in table && filter(table[other]) ==> other == id
    ensures r.Err? <==> exists a, b :: a in table && b in table && a != b && filter(table[a]) && filter(table[b])
  {
    var found := set id | id in table && filter(table[id]);
    if found == {} then
      assert forall id :: id in table ==> (id in found <==> filter(table[id]));
      Ok(None)
    else
      var id :| id in found;
      if found == {id} then
        assert forall other :: other in table && filter(table[other]) ==> other in found;
        Ok(Some(table[id]))
      else
        var other :| other in found && other != id;
        Err(MultipleObjectsReturned)
  }
}
