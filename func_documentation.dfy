/** Extraction of a callable's summary and per-parameter descriptions from
    its parsed Google-style docstring (`_generate_func_documentation`). The
    docstring parser itself is not modelled: its output, a list of sections,
    is an input here. */
module FuncDocumentation {
  import opened Common
  import Dicts

  /** One entry of an `Args:` section. */
  datatype DocParam = DocParam(name: string, description: string)

  /** A parsed docstring section, by kind: free text, a parameter list, or
      any other kind (returns, raises, examples, ...), which is ignored. */
  datatype Section =
    | TextSection(text: string)
    | ParametersSection(params: seq<DocParam>)
    | OtherSection(kind: string)

  /** The docstring as `inspect.getdoc` returns it (`None` when there is
      none), with the sections the parser makes of it. */
  datatype Docstring = Docstring(raw: Option<string>, parsed: seq<Section>)

  /** The documentation record: the callable's name, its summary and its
      parameter descriptions, the latter two possibly absent. */
  datatype DocInfo = DocInfo(
    name: string,
    description: Option<string>,
    paramDescriptions: Option<Dicts.Dict<string, string>>)

  /** `not doc`: no docstring, or an empty one. */
  predicate IsMissing(doc: Docstring) {
    doc.raw == None || doc.raw == Some("")
  }

  /** `next((s.value for s in parsed if s.kind == text), None)` */
  function FirstText(sections: seq<Section>): (r: Option<string>)
    ensures r.Some? ==> TextSection(r.value) in sections
  {
    if sections == [] then None
    else if sections[0].TextSection? then Some(sections[0].text)
    else FirstText(sections[1..])
  }

  /** The entries of all parameter sections, section after section. */
  function DocParams(sections: seq<Section>): seq<DocParam> {
    if sections == [] then []
    else SectionParams(sections[0]) + DocParams(sections[1..])
  }

  function SectionParams(section: Section): seq<DocParam> {
    if section.ParametersSection? then section.params else []
  }

  function DescriptionPairs(ps: seq<DocParam>): seq<(string, string)> {
    seq(|ps|, i requires 0 <= i < |ps| => (ps[i].name, ps[i].description))
  }

  /** `{p.name: p.description for s in parsed if s.kind == parameters for p in s.value}` */
  function ParamDescriptions(sections: seq<Section>): (r: Dicts.Dict<string, string>)
    ensures r.Valid()
    ensures forall p | p in DocParams(sections) :: p.name in r.values
    ensures forall n | n in r.values :: exists p | p in DocParams(sections) :: p.name == n
  {
    var entries := DocParams(sections);
    var pairs := DescriptionPairs(entries);
    assert forall i | 0 <= i < |entries| :: Dicts.Firsts(pairs)[i] == entries[i].name;
    Dicts.FromPairs(pairs)
  }

  /** `_generate_func_documentation`. */
  function GenerateFuncDocumentation(name: string, doc: Docstring): (r: DocInfo)
    ensures r.name == name
    ensures IsMissing(doc) ==> r.description == None && r.paramDescriptions == None
    ensures !IsMissing(doc) ==> r.description == FirstText(doc.parsed)
    ensures r.paramDescriptions.Some? ==>
      r.paramDescriptions.value == ParamDescriptions(doc.parsed) && r.paramDescriptions.value.values != map[]
    ensures !IsMissing(doc) && ParamDescriptions(doc.parsed).values != map[] ==> r.paramDescriptions.Some?
  {
    if IsMissing(doc) then DocInfo(name, None, None)
    else
      var descriptions := ParamDescriptions(doc.parsed);
      DocInfo(name, FirstText(doc.parsed), if descriptions.keys == [] then None else Some(descriptions))
  }

  /** The summary is the text of the first text section, and is absent
      exactly when there is no text section. */
  lemma {:induction false} FirstTextIsFirst(sections: seq<Section>, i: nat)
    requires i < |sections| && sections[i].TextSection?
    requires forall j | 0 <= j < i :: !sections[j].TextSection?
    ensures FirstText(sections) == Some(sections[i].text)
  {
    if i > 0 {
      FirstTextIsFirst(sections[1..], i - 1);
    }
  }

  lemma {:induction false} FirstTextAbsent(sections: seq<Section>)
    ensures FirstText(sections) == None <==> forall j | 0 <= j < |sections| :: !sections[j].TextSection?
  {
    if sections != [] {
      FirstTextAbsent(sections[1..]);
      assert forall j | 1 <= j < |sections| :: sections[j] == sections[1..][j - 1];
    }
  }

  /** A documented parameter is collected exactly when some parameter
      section lists it. */
  lemma {:induction false} DocParamsMembership(sections: seq<Section>, p: DocParam)
    ensures p in DocParams(sections) <==>
      exists i | 0 <= i < |sections| :: sections[i].ParametersSection? && p in sections[i].params
  {
    if sections != [] {
      DocParamsMembership(sections[1..], p);
      if p in DocParams(sections[1..]) {
        var i :| 0 <= i < |sections[1..]| && sections[1..][i].ParametersSection? && p in sections[1..][i].params;
        assert sections[i + 1] == sections[1..][i];
      }
      if exists i | 0 <= i < |sections| :: sections[i].ParametersSection? && p in sections[i].params {
        var i :| 0 <= i < |sections| && sections[i].ParametersSection? && p in sections[i].params;
        if i > 0 {
          assert sections[1..][i - 1] == sections[i];
        }
      }
    }
  }

  lemma {:induction false} DocParamsSnoc(sections: seq<Section>, s: Section)
    ensures DocParams(sections + [s]) == DocParams(sections) + SectionParams(s)
  {
    if sections == [] {
      assert DocParams([s][1..]) == [];
    } else {
      assert (sections + [s])[1..] == sections[1..] + [s];
      DocParamsSnoc(sections[1..], s);
    }
  }

  /** When several parameter sections describe the same name, the later one
      wins: a parameter section appended after any others decides the
      description of every name it lists. */
  lemma LaterSectionWins(sections: seq<Section>, ps: seq<DocParam>, name: string)
    requires exists i | 0 <= i < |ps| :: ps[i].name == name
    ensures ParamDescriptions(sections + [ParametersSection(ps)]).Get(name)
         == Dicts.FromPairs(DescriptionPairs(ps)).Get(name)
  {
    DocParamsSnoc(sections, ParametersSection(ps));
    var all := DocParams(sections);
    assert DescriptionPairs(all + ps) == DescriptionPairs(all) + DescriptionPairs(ps);
    var i :| 0 <= i < |ps| && ps[i].name == name;
    assert Dicts.Firsts(DescriptionPairs(ps))[i] == name;
    Dicts.FromPairsOverride(DescriptionPairs(all), DescriptionPairs(ps), name);
  }

  /** Within the flattened entries, the description kept for a name is the
      one of its last entry. */
  lemma LastDescriptionKept(sections: seq<Section>, i: nat)
    requires i < |DocParams(sections)|
    requires forall j | i < j < |DocParams(sections)| :: DocParams(sections)[j].name != DocParams(sections)[i].name
    ensures ParamDescriptions(sections).Get(DocParams(sections)[i].name)
         == Some(DocParams(sections)[i].description)
  {
    Dicts.FromPairsLastWins(DescriptionPairs(DocParams(sections)), i);
  }
}
