/** The parser and the printer as they work: loops that append to strings and vectors. */
module Parser {
  import opened Options
  import opened QueryText

  /** getline in a loop: the tokens found so far, and the rest of the line. */
  method SplitString(line: string, delimiter: char) returns (result: seq<string>)
    ensures result == Split(line, delimiter)
  {
    result := [];
    var rest := line;
    while rest != []
      invariant Split(line, delimiter) == result + Split(rest, delimiter)
      decreases |rest|
    {
      var i := 0;
      while i < |rest| && rest[i] != delimiter
        invariant i <= |rest| && forall j :: 0 <= j < i ==> rest[j] != delimiter
      {
        i := i + 1;
      }
      if i < |rest| {
        FindFirst(rest, delimiter, i);
        result, rest := result + [rest[..i]], rest[i + 1..];
      } else {
        FindNone(rest, delimiter);
        result, rest := result + [rest], [];
      }
    }
  }

  /** Split a line into numbers; not ok where stoul throws. */
  method SplitNumbers(line: string, delimiter: char) returns (ok: bool, result: seq<nat>)
    ensures ok <==> Numbers(Split(line, delimiter)).Some?
    ensures ok ==> Numbers(Split(line, delimiter)) == Some(result)
  {
    var tokens := SplitString(line, delimiter);
    result := [];
    for i := 0 to |tokens|
      invariant ParseEach(Unsigned, tokens[..i]) == Some(result)
    {
      var n := Stoul(tokens[i]);
      if n.None? {
        EachParsed(Unsigned, tokens);
        return false, result;
      }
      EachGrows(Unsigned, tokens, i);
      result := result + [n.value % UINT];
    }
    assert tokens[..|tokens|] == tokens;
    ok := true;
  }

  method ParsePair(raw: string) returns (r: Option<SelectInfo>)
    ensures r == ParseRelColPair(raw)
  {
    var ok, ids := SplitNumbers(raw, '.');
    if !ok || |ids| < 2 {
      return None;
    }
    return Some(SelectInfo(0, ids[0], ids[1]));
  }

  /** The elements' texts with delimiters between them. */
  method DumpPart<T>(text: T -> string, elements: seq<T>, delimiter: char) returns (ss: string)
    ensures ss == JoinTexts(Texts(text, elements), delimiter)
  {
    ss := [];
    for i := 0 to |elements|
      invariant ss == JoinTexts(Texts(text, elements)[..i], delimiter) + (if 0 < i < |elements| then [delimiter] else [])
    {
      ghost var texts := Texts(text, elements);
      assert texts[..i + 1] == texts[..i] + [texts[i]];
      JoinConcat(texts[..i], [texts[i]], delimiter);
      ss := ss + text(elements[i]);
      if i < |elements| - 1 {
        ss := ss + [delimiter];
      }
    }
    assert Texts(text, elements)[..|elements|] == Texts(text, elements);
  }

  /** Where the source fails an assertion, throws or reads beyond a vector, a method returns false. */
  class QueryInfo {
    var relationIds: seq<nat>
    var predicates: seq<PredicateInfo>
    var filters: seq<FilterInfo>
    var selections: seq<SelectInfo>

    function Value(): Query
      reads this
    {
      Query(relationIds, predicates, filters, selections)
    }

    constructor ()
      ensures Value() == Query([], [], [], [])
    {
      relationIds, predicates, filters, selections := [], [], [], [];
    }

    method Clear()
      modifies this
      ensures Value() == Query([], [], [], [])
    {
      relationIds, predicates, filters, selections := [], [], [], [];
    }

    method ParseRelationIds(raw: string) returns (ok: bool)
      modifies this`relationIds
      ensures ok <==> Numbers(Split(raw, ' ')).Some?
      ensures ok ==> relationIds == old(relationIds) + Numbers(Split(raw, ' ')).value
    {
      var ids;
      ok, ids := SplitNumbers(raw, ' ');
      relationIds := relationIds + ids;
    }

    method ParsePredicate(raw: string) returns (ok: bool)
      modifies this`predicates, this`filters
      ensures ok <==> QueryText.ParsePredicate(raw).Some?
      ensures ok ==> Value() == AddParsed(old(Value()), QueryText.ParsePredicate(raw).value)
      ensures !ok ==> Value() == old(Value())
    {
      var relCols := SplitPredicates(raw);
      if |relCols| != 2 || IsConstant(relCols[0]) {
        return false;
      }
      var leftSelect := ParsePair(relCols[0]);
      if leftSelect.None? {
        return false;
      }
      if IsConstant(relCols[1]) {
        var constant := Stoul(relCols[1]);
        if constant.None? || |relCols[0]| >= |raw| || ComparisonOf(raw[|relCols[0]|]).None? {
          return false;
        }
        filters := filters + [FilterInfo(leftSelect.value, constant.value, ComparisonOf(raw[|relCols[0]|]).value)];
      } else {
        var rightSelect := ParsePair(relCols[1]);
        if rightSelect.None? {
          return false;
        }
        predicates := predicates + [PredicateInfo(leftSelect.value, rightSelect.value)];
      }
      ok := true;
    }

    method ParsePredicates(text: string) returns (ok: bool)
      modifies this`predicates, this`filters
      ensures ok <==> AddPredicates(old(Value()), Split(text, '&')).Some?
      ensures ok ==> Some(Value()) == AddPredicates(old(Value()), Split(text, '&'))
    {
      var raws := SplitString(text, '&');
      ghost var parsed: seq<Parsed> := [];
      for i := 0 to |raws|
        invariant ParseEach(QueryText.ParsePredicate, raws[..i]) == Some(parsed)
        invariant Value() == AddAll(old(Value()), parsed)
      {
        ok := ParsePredicate(raws[i]);
        if !ok {
          EachParsed(QueryText.ParsePredicate, raws);
          return;
        }
        EachGrows(QueryText.ParsePredicate, raws, i);
        parsed := parsed + [QueryText.ParsePredicate(raws[i]).value];
        assert parsed[..|parsed| - 1] + [parsed[|parsed| - 1]] == parsed;
      }
      assert raws[..|raws|] == raws;
      ok := true;
    }

    method ParseSelections(raw: string) returns (ok: bool)
      modifies this`selections
      ensures ok <==> Selections(Split(raw, ' ')).Some?
      ensures ok ==> selections == old(selections) + Selections(Split(raw, ' ')).value
    {
      var raws := SplitString(raw, ' ');
      ghost var parsed: seq<SelectInfo> := [];
      for i := 0 to |raws|
        invariant ParseEach(ParseRelColPair, raws[..i]) == Some(parsed) && selections == old(selections) + parsed
      {
        var s := ParsePair(raws[i]);
        if s.None? {
          EachParsed(ParseRelColPair, raws);
          return false;
        }
        EachGrows(ParseRelColPair, raws, i);
        selections := selections + [s.value];
        parsed := parsed + [s.value];
      }
      assert raws[..|raws|] == raws;
      ok := true;
    }

    /** Every column gets the relation id of its binding, in place. */
    method ResolveSelections() returns (ok: bool)
      modifies this`selections
      ensures ok <==> forall j :: 0 <= j < |old(selections)| ==> InRange(relationIds, old(selections)[j])
      ensures ok ==> |selections| == |old(selections)|
      ensures ok ==> forall j :: 0 <= j < |selections| ==> selections[j] == Resolve(relationIds, old(selections)[j])
    {
      for i := 0 to |selections|
        invariant |selections| == |old(selections)| && forall j :: i <= j < |selections| ==> selections[j] == old(selections)[j]
        invariant forall j :: 0 <= j < i ==> InRange(relationIds, old(selections)[j])
        invariant forall j :: 0 <= j < i ==> selections[j] == Resolve(relationIds, old(selections)[j])
      {
        if selections[i].binding >= |relationIds| {
          return false;
        }
        selections := selections[i := Resolve(relationIds, selections[i])];
      }
      ok := true;
    }

    method ResolvePredicates() returns (ok: bool)
      modifies this`predicates
      ensures ok <==> forall j :: 0 <= j < |old(predicates)| ==>
                        InRange(relationIds, old(predicates)[j].left) && InRange(relationIds, old(predicates)[j].right)
      ensures ok ==> |predicates| == |old(predicates)|
      ensures ok ==> forall j :: 0 <= j < |predicates| ==>
                       predicates[j] == PredicateInfo(Resolve(relationIds, old(predicates)[j].left),
                                                      Resolve(relationIds, old(predicates)[j].right))
    {
      for i := 0 to |predicates|
        invariant |predicates| == |old(predicates)| && forall j :: i <= j < |predicates| ==> predicates[j] == old(predicates)[j]
        invariant forall j :: 0 <= j < i ==>
                    InRange(relationIds, old(predicates)[j].left) && InRange(relationIds, old(predicates)[j].right)
        invariant forall j :: 0 <= j < i ==>
                    predicates[j] == PredicateInfo(Resolve(relationIds, old(predicates)[j].left),
                                                   Resolve(relationIds, old(predicates)[j].right))
      {
        var p := predicates[i];
        if p.left.binding >= |relationIds| || p.right.binding >= |relationIds| {
          return false;
        }
        predicates := predicates[i := PredicateInfo(Resolve(relationIds, p.left), Resolve(relationIds, p.right))];
      }
      ok := true;
    }

    method ResolveFilters() returns (ok: bool)
      modifies this`filters
      ensures ok <==> forall j :: 0 <= j < |old(filters)| ==> InRange(relationIds, old(filters)[j].filterColumn)
      ensures ok ==> |filters| == |old(filters)|
      ensures ok ==> forall j :: 0 <= j < |filters| ==>
                       filters[j] == old(filters)[j].(filterColumn := Resolve(relationIds, old(filters)[j].filterColumn))
    {
      for i := 0 to |filters|
        invariant |filters| == |old(filters)| && forall j :: i <= j < |filters| ==> filters[j] == old(filters)[j]
        invariant forall j :: 0 <= j < i ==> InRange(relationIds, old(filters)[j].filterColumn)
        invariant forall j :: 0 <= j < i ==>
                    filters[j] == old(filters)[j].(filterColumn := Resolve(relationIds, old(filters)[j].filterColumn))
      {
        var f := filters[i];
        if f.filterColumn.binding >= |relationIds| {
          return false;
        }
        filters := filters[i := f.(filterColumn := Resolve(relationIds, f.filterColumn))];
      }
      ok := true;
    }

    method ResolveRelationIds() returns (ok: bool)
      modifies this`selections, this`predicates, this`filters
      ensures ok <==> ResolveOption(old(Value())).Some?
      ensures ok ==> Some(Value()) == ResolveOption(old(Value()))
    {
      ok := ResolveSelections();
      if ok {
        ok := ResolvePredicates();
      }
      if ok {
        ok := ResolveFilters();
      }
      if ok {
        assert Value() == ResolveAll(old(Value()));
      }
    }

    method ParseParts(relations: string, predicatesText: string, selectionsText: string) returns (ok: bool)
      requires Value() == Query([], [], [], [])
      modifies this
      ensures ok <==> QueryText.ParseParts(relations, predicatesText, selectionsText).Some?
      ensures ok ==> Some(Value()) == QueryText.ParseParts(relations, predicatesText, selectionsText)
    {
      ok := ParseRelationIds(relations);
      if !ok {
        return;
      }
      ghost var ids := Numbers(Split(relations, ' ')).value;
      assert Value() == Query(ids, [], [], []);
      ok := ParsePredicates(predicatesText);
      if !ok {
        return;
      }
      ghost var q := Value();
      ok := ParseSelections(selectionsText);
      if !ok {
        return;
      }
      ghost var s := Selections(Split(selectionsText, ' ')).value;
      assert q.selections + s == s;
      assert Value() == q.(selections := s);
      ok := ResolveRelationIds();
    }

    method ParseQuery(raw: string) returns (ok: bool)
      modifies this
      ensures ok <==> QueryText.ParseQuery(raw).Some?
      ensures ok ==> Some(Value()) == QueryText.ParseQuery(raw)
    {
      Clear();
      var parts := SplitString(raw, '|');
      if |parts| != 3 {
        return false;
      }
      ok := ParseParts(parts[0], parts[1], parts[2]);
    }

    method DumpText() returns (text: string)
      ensures text == QueryText.DumpText(Value())
    {
      text := DumpPart(ToString, relationIds, ' ');
      text := text + "|";
      var part := DumpPart(PredicateText, predicates, '&');
      text := text + part;
      if predicates != [] && filters != [] {
        text := text + "&";
      }
      part := DumpPart(FilterText, filters, '&');
      text := text + part + "|";
      part := DumpPart(SelectText, selections, ' ');
      text := text + part;
    }
  }
}
