/** The text form of queries, as functions: what the parser and the printer compute. */
module QueryText {

  import opened Options

  datatype SelectInfo = SelectInfo(relId: nat, binding: nat, colId: nat)

  datatype Comparison = Less | Greater | Equal

  datatype FilterInfo = FilterInfo(filterColumn: SelectInfo, constant: nat, comparison: Comparison)

  datatype PredicateInfo = PredicateInfo(left: SelectInfo, right: SelectInfo)

  datatype Query = Query(relationIds: seq<nat>, predicates: seq<PredicateInfo>, filters: seq<FilterInfo>,
                         selections: seq<SelectInfo>)

  /** The widths of unsigned and of unsigned long. */
  const UINT := 0x1_0000_0000
  const ULONG := 0x1_0000_0000_0000_0000

  // ---------------------------------------------------------------- numbers

  predicate IsDigit(c: char) {
    '0' <= c <= '9'
  }

  /** std::to_string */
  function ToString(n: nat): (s: string)
    ensures s != [] && forall i :: 0 <= i < |s| ==> IsDigit(s[i])
  {
    var digit := ['0' + (n % 10) as char];
    if n < 10 then digit else ToString(n / 10) + digit
  }

  /** The number of leading digits. */
  function Digits(s: string): (k: nat)
    ensures k <= |s| && (k < |s| ==> !IsDigit(s[k])) && forall i :: 0 <= i < k ==> IsDigit(s[i])
  {
    if s == [] || !IsDigit(s[0]) then 0
    else
      var k := Digits(s[1..]);
      assert forall i :: 0 < i < k + 1 ==> s[i] == s[1..][i - 1];
      k + 1
  }

  function Value(digits: string): nat
    requires forall i :: 0 <= i < |digits| ==> IsDigit(digits[i])
  {
    if digits == [] then 0
    else
      var last := digits[|digits| - 1];
      assert IsDigit(last);
      10 * Value(digits[..|digits| - 1]) + (last - '0') as nat
  }

  function PowerOfTen(k: nat): nat {
    if k == 0 then 1 else 10 * PowerOfTen(k - 1)
  }

  /** The number a decimal text stands for: every digit times the power of ten of its place. */
  function Decimal(digits: string): nat
    requires forall i :: 0 <= i < |digits| ==> IsDigit(digits[i])
  {
    if digits == [] then 0
    else
      assert IsDigit(digits[0]);
      (digits[0] - '0') as nat * PowerOfTen(|digits| - 1) + Decimal(digits[1..])
  }

  lemma {:induction false} DecimalGrows(digits: string, c: char)
    requires IsDigit(c) && forall i :: 0 <= i < |digits| ==> IsDigit(digits[i])
    ensures Decimal(digits + [c]) == 10 * Decimal(digits) + (c - '0') as nat
  {
    var longer := digits + [c];
    if digits == [] {
      assert longer[1..] == [];
    } else {
      DecimalGrows(digits[1..], c);
      assert longer[1..] == digits[1..] + [c];
      MoveLeft((digits[0] - '0') as nat, PowerOfTen(|digits| - 1), Decimal(digits[1..]), (c - '0') as nat);
    }
  }

  lemma MoveLeft(first: nat, power: nat, rest: nat, last: nat)
    ensures first * (10 * power) + (10 * rest + last) == 10 * (first * power + rest) + last
  {
  }

  /** std::to_string prints a number in decimal, without leading zeros. */
  lemma {:induction false} ToStringIsDecimal(n: nat)
    ensures Decimal(ToString(n)) == n && (|ToString(n)| > 1 ==> ToString(n)[0] != '0')
  {
    if n >= 10 {
      ToStringIsDecimal(n / 10);
      DecimalGrows(ToString(n / 10), '0' + (n % 10) as char);
      if n / 10 < 10 { assert ToString(n / 10) == ['0' + (n / 10 % 10) as char]; }
    }
  }

  predicate IsSpace(c: char) {
    c == ' ' || '\t' <= c <= '\r'
  }

  function SkipSpaces(s: string): string {
    if s != [] && IsSpace(s[0]) then SkipSpaces(s[1..]) else s
  }

  /** std::stoul: spaces, a sign, and as many digits as there are; no value where it throws. */
  function Stoul(token: string): Option<nat> {
    var s := SkipSpaces(token);
    var negative := s != [] && s[0] == '-';
    var unsigned := if s != [] && (s[0] == '-' || s[0] == '+') then s[1..] else s;
    var value := Value(unsigned[..Digits(unsigned)]);
    if Digits(unsigned) == 0 || value >= ULONG then None
    else Some(if negative then (ULONG - value) % ULONG else value)
  }

  lemma {:induction false} ValueOfToString(n: nat)
    ensures Value(ToString(n)) == n
  {
    if n >= 10 {
      ValueOfToString(n / 10);
      assert ToString(n)[..|ToString(n)| - 1] == ToString(n / 10);
    }
  }

  lemma StoulOfToString(n: nat)
    requires n < ULONG
    ensures Stoul(ToString(n)) == Some(n)
  {
    var s := ToString(n);
    ValueOfToString(n);
    assert IsDigit(s[0]);
    assert Digits(s) == |s|;
    assert s[..|s|] == s;
  }

  // ---------------------------------------------------------------- splitting

  /** Where c first is in s, or the length. */
  function Find(s: string, c: char): (i: nat)
    ensures i <= |s| && (i < |s| ==> s[i] == c) && c !in s[..i]
  {
    if s == [] || s[0] == c then 0
    else
      var i := Find(s[1..], c);
      assert s[..i + 1] == [s[0]] + s[1..][..i];
      i + 1
  }

  /** The tokens getline finds: none after a delimiter at the end. */
  function Split(line: string, delimiter: char): seq<string>
    decreases |line|
  {
    if line == [] then []
    else
      var i := Find(line, delimiter);
      if i == |line| then [line] else [line[..i]] + Split(line[i + 1..], delimiter)
  }

  /** The parts with delimiters between. */
  function JoinTexts(parts: seq<string>, delimiter: char): string {
    if parts == [] then [] else if |parts| == 1 then parts[0] else parts[0] + [delimiter] + JoinTexts(parts[1..], delimiter)
  }

  lemma {:induction false} FindFirst(line: string, c: char, i: nat)
    requires i < |line| && line[i] == c && forall j :: 0 <= j < i ==> line[j] != c
    ensures Find(line, c) == i
  {
    if i > 0 { FindFirst(line[1..], c, i - 1); }
  }

  lemma {:induction false} FindNone(s: string, c: char)
    requires c !in s
    ensures Find(s, c) == |s|
  {
    if s != [] { FindNone(s[1..], c); }
  }

  /** Splitting undoes joining, unless the last part is empty. */
  lemma {:induction false} SplitJoin(parts: seq<string>, d: char)
    requires forall i :: 0 <= i < |parts| ==> d !in parts[i]
    requires parts != [] ==> parts[|parts| - 1] != []
    ensures Split(JoinTexts(parts, d), d) == parts
  {
    if |parts| == 1 {
      FindNone(parts[0], d);
    } else if |parts| > 1 {
      SplitJoin(parts[1..], d);
      SplitFirst(parts[0], d, JoinTexts(parts[1..], d));
      assert [parts[0]] + parts[1..] == parts;
    }
  }

  lemma SplitFirst(first: string, d: char, rest: string)
    requires d !in first
    ensures Split(first + [d] + rest, d) == [first] + Split(rest, d)
  {
    var line := first + [d] + rest;
    assert forall j :: 0 <= j < |first| ==> line[j] == first[j] && line[j] in first;
    FindFirst(line, d, |first|);
    assert line[..|first|] == first && line[|first| + 1..] == rest;
  }

  // ---------------------------------------------------------------- printing

  function SelectText(s: SelectInfo): string {
    ToString(s.binding) + "." + ToString(s.colId)
  }

  function Sign(c: Comparison): char {
    match c case Less => '<' case Greater => '>' case Equal => '='
  }

  function FilterText(f: FilterInfo): string {
    SelectText(f.filterColumn) + [Sign(f.comparison)] + ToString(f.constant)
  }

  function PredicateText(p: PredicateInfo): string {
    SelectText(p.left) + "=" + SelectText(p.right)
  }

  function Texts<T>(f: T -> string, s: seq<T>): (r: seq<string>)
    ensures |r| == |s| && forall i :: 0 <= i < |s| ==> r[i] == f(s[i])
  {
    seq(|s|, i requires 0 <= i < |s| => f(s[i]))
  }

  /** QueryInfo::dumpText */
  function DumpText(q: Query): string {
    JoinTexts(Texts(ToString, q.relationIds), ' ') + "|" +
    JoinTexts(Texts(PredicateText, q.predicates), '&') + (if q.predicates != [] && q.filters != [] then "&" else "") +
    JoinTexts(Texts(FilterText, q.filters), '&') + "|" +
    JoinTexts(Texts(SelectText, q.selections), ' ')
  }

  // ---------------------------------------------------------------- parsing

  /** All tokens parsed in order; None where one cannot be. */
  function ParseEach<T>(f: string -> Option<T>, tokens: seq<string>): Option<seq<T>> {
    if tokens == [] then Some([])
    else
      var before, last := ParseEach(f, tokens[..|tokens| - 1]), f(tokens[|tokens| - 1]);
      if before.None? || last.None? then None else Some(before.value + [last.value])
  }

  lemma EachGrows<T>(f: string -> Option<T>, tokens: seq<string>, i: nat)
    requires i < |tokens| && ParseEach(f, tokens[..i]).Some? && f(tokens[i]).Some?
    ensures ParseEach(f, tokens[..i + 1]) == Some(ParseEach(f, tokens[..i]).value + [f(tokens[i]).value])
  {
    assert tokens[..i + 1][..i] == tokens[..i];
  }

  lemma {:induction false} EachParses<T>(f: string -> Option<T>, tokens: seq<string>, values: seq<T>)
    requires |tokens| == |values| && forall i :: 0 <= i < |tokens| ==> f(tokens[i]) == Some(values[i])
    ensures ParseEach(f, tokens) == Some(values)
  {
    if tokens != [] {
      var n := |tokens| - 1;
      EachParses(f, tokens[..n], values[..n]);
      assert values[..n] + [values[n]] == values;
    }
  }

  lemma {:induction false} EachParsed<T>(f: string -> Option<T>, tokens: seq<string>)
    ensures ParseEach(f, tokens).Some? <==> forall i :: 0 <= i < |tokens| ==> f(tokens[i]).Some?
    ensures ParseEach(f, tokens).Some? ==> |ParseEach(f, tokens).value| == |tokens|
    ensures ParseEach(f, tokens).Some? ==> forall i :: 0 <= i < |tokens| ==> f(tokens[i]) == Some(ParseEach(f, tokens).value[i])
  {
    if tokens != [] {
      var n := |tokens| - 1;
      EachParsed(f, tokens[..n]);
      forall i | 0 <= i < n ensures tokens[..n][i] == tokens[i] {}
    }
  }

  /** A number cut to the width of unsigned. */
  function Unsigned(token: string): Option<nat> {
    match Stoul(token)
    case None => None
    case Some(n) => Some(n % UINT)
  }

  function Numbers(tokens: seq<string>): Option<seq<nat>> {
    ParseEach(Unsigned, tokens)
  }

  /** "binding.column"; None where the source throws or reads beyond the vector. */
  function ParseRelColPair(raw: string): Option<SelectInfo> {
    var ids := Numbers(Split(raw, '.'));
    if ids.None? || |ids.value| < 2 then None else Some(SelectInfo(0, ids.value[0], ids.value[1]))
  }

  predicate IsConstant(raw: string) {
    '.' !in raw
  }

  /** Split at the first of the signs <, >, = that occurs anywhere. */
  function SplitPredicates(line: string): seq<string> {
    if '<' in line then Split(line, '<')
    else if '>' in line then Split(line, '>')
    else if '=' in line then Split(line, '=')
    else []
  }

  function ComparisonOf(c: char): Option<Comparison> {
    if c == '<' then Some(Less) else if c == '>' then Some(Greater) else if c == '=' then Some(Equal) else None
  }

  datatype Parsed = Filter(f: FilterInfo) | Predicate(p: PredicateInfo)

  /** A join predicate or a filter; None where an assertion fails or a conversion throws. */
  function ParsePredicate(raw: string): Option<Parsed> {
    var relCols := SplitPredicates(raw);
    if |relCols| != 2 || IsConstant(relCols[0]) then None
    else
      var left := ParseRelColPair(relCols[0]);
      if left.None? then None
      else if IsConstant(relCols[1]) then
        var constant := Stoul(relCols[1]);
        if constant.None? || |relCols[0]| >= |raw| || ComparisonOf(raw[|relCols[0]|]).None? then None
        else Some(Filter(FilterInfo(left.value, constant.value, ComparisonOf(raw[|relCols[0]|]).value)))
      else
        var right := ParseRelColPair(relCols[1]);
        if right.None? then None else Some(Predicate(PredicateInfo(left.value, right.value)))
  }

  /** One more predicate or filter. */
  function AddParsed(q: Query, x: Parsed): Query {
    match x
    case Filter(f) => q.(filters := q.filters + [f])
    case Predicate(p) => q.(predicates := q.predicates + [p])
  }

  function AddAll(q: Query, xs: seq<Parsed>): Query
    decreases |xs|
  {
    if xs == [] then q else AddParsed(AddAll(q, xs[..|xs| - 1]), xs[|xs| - 1])
  }

  /** The strings are parsed in order and added to q. */
  function AddPredicates(q: Query, raws: seq<string>): Option<Query> {
    match ParseEach(ParsePredicate, raws)
    case None => None
    case Some(xs) => Some(AddAll(q, xs))
  }

  function Selections(raws: seq<string>): Option<seq<SelectInfo>> {
    ParseEach(ParseRelColPair, raws)
  }

  predicate InRange(relationIds: seq<nat>, s: SelectInfo) {
    s.binding < |relationIds|
  }

  function Resolve(relationIds: seq<nat>, s: SelectInfo): SelectInfo
    requires InRange(relationIds, s)
  {
    s.(relId := relationIds[s.binding])
  }

  /** Every binding names one of the relations. */
  predicate Resolvable(q: Query) {
    && (forall i :: 0 <= i < |q.selections| ==> InRange(q.relationIds, q.selections[i]))
    && (forall i :: 0 <= i < |q.predicates| ==>
          InRange(q.relationIds, q.predicates[i].left) && InRange(q.relationIds, q.predicates[i].right))
    && (forall i :: 0 <= i < |q.filters| ==> InRange(q.relationIds, q.filters[i].filterColumn))
  }

  function ResolveAll(q: Query): Query
    requires Resolvable(q)
  {
    var ids := q.relationIds;
    q.(selections := seq(|q.selections|, i requires 0 <= i < |q.selections| => Resolve(ids, q.selections[i])),
       predicates := seq(|q.predicates|, i requires 0 <= i < |q.predicates| =>
                           PredicateInfo(Resolve(ids, q.predicates[i].left), Resolve(ids, q.predicates[i].right))),
       filters := seq(|q.filters|, i requires 0 <= i < |q.filters| =>
                        q.filters[i].(filterColumn := Resolve(ids, q.filters[i].filterColumn))))
  }

  /** The relations, the predicates and filters, and the selections, one after the other. */
  function ParseParts(relations: string, predicates: string, selections: string): Option<Query> {
    var ids := Numbers(Split(relations, ' '));
    if ids.None? then None
    else
      var q := AddPredicates(Query(ids.value, [], [], []), Split(predicates, '&'));
      var s := Selections(Split(selections, ' '));
      if q.None? || s.None? then None else ResolveOption(q.value.(selections := s.value))
  }

  function ResolveOption(q: Query): Option<Query> {
    if Resolvable(q) then Some(ResolveAll(q)) else None
  }

  /** QueryInfo::parseQuery */
  function ParseQuery(raw: string): Option<Query> {
    var parts := Split(raw, '|');
    if |parts| != 3 then None else ParseParts(parts[0], parts[1], parts[2])
  }

  // ---------------------------------------------------------------- printing, then parsing

  /** The numbers fit their types, and the relation id is that of the binding. */
  predicate SelectFits(relationIds: seq<nat>, s: SelectInfo) {
    InRange(relationIds, s) && s.binding < UINT && s.colId < UINT && s.relId == relationIds[s.binding]
  }

  predicate Fits(q: Query) {
    && (forall i :: 0 <= i < |q.relationIds| ==> q.relationIds[i] < UINT)
    && (forall i :: 0 <= i < |q.selections| ==> SelectFits(q.relationIds, q.selections[i]))
    && (forall i :: 0 <= i < |q.predicates| ==>
          SelectFits(q.relationIds, q.predicates[i].left) && SelectFits(q.relationIds, q.predicates[i].right))
    && (forall i :: 0 <= i < |q.filters| ==>
          SelectFits(q.relationIds, q.filters[i].filterColumn) && q.filters[i].constant < ULONG)
  }

  /** What parsing a column finds before its relation id is resolved. */
  function Unresolved(s: SelectInfo): SelectInfo {
    s.(relId := 0)
  }

  predicate NumberFits(s: SelectInfo) {
    s.binding < UINT && s.colId < UINT
  }

  lemma NoDigit(n: nat, c: char)
    requires !IsDigit(c)
    ensures c !in ToString(n)
  {
    assert forall i :: 0 <= i < |ToString(n)| ==> IsDigit(ToString(n)[i]) && ToString(n)[i] != c;
  }

  lemma InSelectText(s: SelectInfo, c: char)
    requires !IsDigit(c)
    ensures c in SelectText(s) <==> c == '.'
  {
    NoDigit(s.binding, c);
    NoDigit(s.colId, c);
    assert SelectText(s)[|ToString(s.binding)|] == '.';
  }

  lemma UnsignedFits(token: string, n: nat)
    requires Stoul(token) == Some(n) && n < UINT
    ensures Unsigned(token) == Some(n)
  {
  }

  lemma TwoNumbers(x: string, y: string, a: nat, b: nat)
    requires Stoul(x) == Some(a) && Stoul(y) == Some(b) && a < UINT && b < UINT
    ensures Numbers([x, y]) == Some([a, b])
  {
    UnsignedFits(x, a);
    UnsignedFits(y, b);
    EachParses(Unsigned, [x, y], [a, b]);
  }

  /** Two numbers around a point. */
  lemma PairParses(x: string, y: string, a: nat, b: nat)
    requires Stoul(x) == Some(a) && Stoul(y) == Some(b) && a < UINT && b < UINT
    requires '.' !in x && '.' !in y && y != []
    ensures ParseRelColPair(x + "." + y) == Some(SelectInfo(0, a, b))
  {
    SplitPair(x, '.', y);
    TwoNumbers(x, y, a, b);
  }

  lemma SelectRoundTrip(s: SelectInfo)
    requires NumberFits(s)
    ensures ParseRelColPair(SelectText(s)) == Some(Unresolved(s))
  {
    NoDigit(s.binding, '.');
    NoDigit(s.colId, '.');
    StoulOfToString(s.binding);
    StoulOfToString(s.colId);
    PairParses(ToString(s.binding), ToString(s.colId), s.binding, s.colId);
  }

  /** Two parts around a sign that is in neither. */
  lemma SplitPair(a: string, sign: char, b: string)
    requires sign !in a && sign !in b && b != []
    ensures Split(a + [sign] + b, sign) == [a, b]
  {
    assert JoinTexts([a, b][1..], sign) == b;
    assert JoinTexts([a, b], sign) == a + [sign] + b;
    SplitJoin([a, b], sign);
  }

  /** The text of a predicate or filter is split at its sign. */
  lemma SplitAtSign(a: string, sign: char, b: string)
    requires sign in {'<', '>', '='} && b != []
    requires forall c :: c in {'<', '>', '='} ==> c !in a && c !in b
    ensures SplitPredicates(a + [sign] + b) == [a, b] && (a + [sign] + b)[|a|] == sign
  {
    var text := a + [sign] + b;
    assert text[|a|] == sign;
    forall c | c in {'<', '>', '='} ensures c in text <==> c == sign {}
    SplitPair(a, sign, b);
  }

  lemma JoinParses(a: string, b: string, left: SelectInfo, right: SelectInfo)
    requires ParseRelColPair(a) == Some(left) && ParseRelColPair(b) == Some(right) && '.' in a && '.' in b
    requires forall c :: c in {'<', '>', '='} ==> c !in a && c !in b
    ensures ParsePredicate(a + ['='] + b) == Some(Predicate(PredicateInfo(left, right)))
  {
    SplitAtSign(a, '=', b);
  }

  lemma FilterParses(a: string, c: Comparison, b: string, left: SelectInfo, k: nat)
    requires ParseRelColPair(a) == Some(left) && Stoul(b) == Some(k) && '.' in a && '.' !in b && b != []
    requires forall c :: c in {'<', '>', '='} ==> c !in a && c !in b
    ensures ParsePredicate(a + [Sign(c)] + b) == Some(Filter(FilterInfo(left, k, c)))
  {
    SplitAtSign(a, Sign(c), b);
  }

  lemma PredicateRoundTrip(p: PredicateInfo)
    requires NumberFits(p.left) && NumberFits(p.right)
    ensures ParsePredicate(PredicateText(p)) == Some(Predicate(PredicateInfo(Unresolved(p.left), Unresolved(p.right))))
  {
    forall c | c in {'<', '>', '=', '.'}
      ensures (c in SelectText(p.left) <==> c == '.') && (c in SelectText(p.right) <==> c == '.')
    {
      InSelectText(p.left, c);
      InSelectText(p.right, c);
    }
    SelectRoundTrip(p.left);
    SelectRoundTrip(p.right);
    JoinParses(SelectText(p.left), SelectText(p.right), Unresolved(p.left), Unresolved(p.right));
    assert PredicateText(p) == SelectText(p.left) + ['='] + SelectText(p.right);
  }

  lemma FilterRoundTrip(f: FilterInfo)
    requires NumberFits(f.filterColumn) && f.constant < ULONG
    ensures ParsePredicate(FilterText(f)) == Some(Filter(f.(filterColumn := Unresolved(f.filterColumn))))
  {
    forall c | c in {'<', '>', '=', '.'}
      ensures (c in SelectText(f.filterColumn) <==> c == '.') && c !in ToString(f.constant)
    {
      InSelectText(f.filterColumn, c);
      NoDigit(f.constant, c);
    }
    SelectRoundTrip(f.filterColumn);
    StoulOfToString(f.constant);
    FilterParses(SelectText(f.filterColumn), f.comparison, ToString(f.constant), Unresolved(f.filterColumn), f.constant);
  }

  lemma NumbersRoundTrip(ids: seq<nat>)
    requires forall i :: 0 <= i < |ids| ==> ids[i] < UINT
    ensures Numbers(Texts(ToString, ids)) == Some(ids)
  {
    forall i | 0 <= i < |ids| ensures Unsigned(Texts(ToString, ids)[i]) == Some(ids[i]) {
      StoulOfToString(ids[i]);
      UnsignedFits(ToString(ids[i]), ids[i]);
    }
    EachParses(Unsigned, Texts(ToString, ids), ids);
  }

  lemma SelectionsRoundTrip(s: seq<SelectInfo>)
    requires forall i :: 0 <= i < |s| ==> NumberFits(s[i])
    ensures Selections(Texts(SelectText, s)) == Some(UnresolvedAll(s))
  {
    forall i | 0 <= i < |s| ensures ParseRelColPair(Texts(SelectText, s)[i]) == Some(UnresolvedAll(s)[i]) {
      SelectRoundTrip(s[i]);
    }
    EachParses(ParseRelColPair, Texts(SelectText, s), UnresolvedAll(s));
  }

  function UnresolvedAll(s: seq<SelectInfo>): seq<SelectInfo> {
    seq(|s|, i requires 0 <= i < |s| => Unresolved(s[i]))
  }

  function UnresolvedPredicates(s: seq<PredicateInfo>): seq<PredicateInfo> {
    seq(|s|, i requires 0 <= i < |s| => PredicateInfo(Unresolved(s[i].left), Unresolved(s[i].right)))
  }

  function UnresolvedFilters(s: seq<FilterInfo>): seq<FilterInfo> {
    seq(|s|, i requires 0 <= i < |s| => s[i].(filterColumn := Unresolved(s[i].filterColumn)))
  }

  lemma {:induction false} AddConcat(q: Query, a: seq<Parsed>, b: seq<Parsed>)
    ensures AddAll(q, a + b) == AddAll(AddAll(q, a), b)
    decreases |b|
  {
    if b == [] {
      assert a + b == a;
    } else {
      AddConcat(q, a, b[..|b| - 1]);
      assert (a + b)[..|a + b| - 1] == a + b[..|b| - 1];
    }
  }

  lemma {:induction false} PredicatesAdded(q: Query, ps: seq<PredicateInfo>)
    ensures AddAll(q, ParsedPredicates(ps)) == q.(predicates := q.predicates + UnresolvedPredicates(ps))
    decreases |ps|
  {
    if ps == [] {
      assert q.predicates + UnresolvedPredicates(ps) == q.predicates;
    } else {
      var before, last := ps[..|ps| - 1], ps[|ps| - 1];
      PredicatesAdded(q, before);
      assert ParsedPredicates(ps)[..|ps| - 1] == ParsedPredicates(before);
      assert q.predicates + UnresolvedPredicates(ps)
          == q.predicates + UnresolvedPredicates(before) + [PredicateInfo(Unresolved(last.left), Unresolved(last.right))];
    }
  }

  lemma {:induction false} FiltersAdded(q: Query, fs: seq<FilterInfo>)
    ensures AddAll(q, ParsedFilters(fs)) == q.(filters := q.filters + UnresolvedFilters(fs))
    decreases |fs|
  {
    if fs == [] {
      assert q.filters + UnresolvedFilters(fs) == q.filters;
    } else {
      var before, last := fs[..|fs| - 1], fs[|fs| - 1];
      FiltersAdded(q, before);
      assert ParsedFilters(fs)[..|fs| - 1] == ParsedFilters(before);
      assert q.filters + UnresolvedFilters(fs)
          == q.filters + UnresolvedFilters(before) + [last.(filterColumn := Unresolved(last.filterColumn))];
    }
  }

  lemma {:induction false} EachConcat<T>(f: string -> Option<T>, a: seq<string>, b: seq<string>)
    requires ParseEach(f, a).Some? && ParseEach(f, b).Some?
    ensures ParseEach(f, a + b) == Some(ParseEach(f, a).value + ParseEach(f, b).value)
    decreases |b|
  {
    if b == [] {
      assert a + b == a && ParseEach(f, a).value + [] == ParseEach(f, a).value;
    } else {
      var before, last := b[..|b| - 1], b[|b| - 1];
      EachConcat(f, a, before);
      assert (a + b)[..|a + b| - 1] == a + before && (a + b)[|a + b| - 1] == last;
      var x, y := ParseEach(f, a).value, ParseEach(f, before).value;
      assert x + y + [f(last).value] == x + (y + [f(last).value]);
    }
  }

  lemma TextsParse<T, U>(f: string -> Option<U>, text: T -> string, values: seq<T>, parsed: seq<U>)
    requires |values| == |parsed| && forall i :: 0 <= i < |values| ==> f(text(values[i])) == Some(parsed[i])
    ensures ParseEach(f, Texts(text, values)) == Some(parsed)
  {
    EachParses(f, Texts(text, values), parsed);
  }

  function ParsedPredicates(ps: seq<PredicateInfo>): (xs: seq<Parsed>)
    ensures |xs| == |ps|
    ensures forall i :: 0 <= i < |ps| ==> xs[i] == Predicate(PredicateInfo(Unresolved(ps[i].left), Unresolved(ps[i].right)))
  {
    seq(|ps|, i requires 0 <= i < |ps| => Predicate(PredicateInfo(Unresolved(ps[i].left), Unresolved(ps[i].right))))
  }

  function ParsedFilters(fs: seq<FilterInfo>): (xs: seq<Parsed>)
    ensures |xs| == |fs|
    ensures forall i :: 0 <= i < |fs| ==> xs[i] == Filter(fs[i].(filterColumn := Unresolved(fs[i].filterColumn)))
  {
    seq(|fs|, i requires 0 <= i < |fs| => Filter(fs[i].(filterColumn := Unresolved(fs[i].filterColumn))))
  }

  lemma PredicatesParse(ps: seq<PredicateInfo>)
    requires forall i :: 0 <= i < |ps| ==> NumberFits(ps[i].left) && NumberFits(ps[i].right)
    ensures ParseEach(ParsePredicate, Texts(PredicateText, ps)) == Some(ParsedPredicates(ps))
  {
    forall i | 0 <= i < |ps| ensures ParsePredicate(PredicateText(ps[i])) == Some(ParsedPredicates(ps)[i]) {
      PredicateRoundTrip(ps[i]);
    }
    TextsParse(ParsePredicate, PredicateText, ps, ParsedPredicates(ps));
  }

  lemma FiltersParse(fs: seq<FilterInfo>)
    requires forall i :: 0 <= i < |fs| ==> NumberFits(fs[i].filterColumn) && fs[i].constant < ULONG
    ensures ParseEach(ParsePredicate, Texts(FilterText, fs)) == Some(ParsedFilters(fs))
  {
    forall i | 0 <= i < |fs| ensures ParsePredicate(FilterText(fs[i])) == Some(ParsedFilters(fs)[i]) {
      FilterRoundTrip(fs[i]);
    }
    TextsParse(ParsePredicate, FilterText, fs, ParsedFilters(fs));
  }

  lemma PredicatesRoundTrip(q: Query, ps: seq<PredicateInfo>, fs: seq<FilterInfo>)
    requires forall i :: 0 <= i < |ps| ==> NumberFits(ps[i].left) && NumberFits(ps[i].right)
    requires forall i :: 0 <= i < |fs| ==> NumberFits(fs[i].filterColumn) && fs[i].constant < ULONG
    ensures AddPredicates(q, Texts(PredicateText, ps) + Texts(FilterText, fs))
         == Some(q.(predicates := q.predicates + UnresolvedPredicates(ps), filters := q.filters + UnresolvedFilters(fs)))
  {
    PredicatesParse(ps);
    FiltersParse(fs);
    EachConcat(ParsePredicate, Texts(PredicateText, ps), Texts(FilterText, fs));
    AddConcat(q, ParsedPredicates(ps), ParsedFilters(fs));
    PredicatesAdded(q, ps);
    FiltersAdded(AddAll(q, ParsedPredicates(ps)), fs);
  }

  // ---------------------------------------------------------------- whole queries

  lemma {:induction false} JoinWithout(parts: seq<string>, d: char, c: char)
    requires c != d && forall i :: 0 <= i < |parts| ==> c !in parts[i]
    ensures c !in JoinTexts(parts, d)
  {
    if |parts| > 1 { JoinWithout(parts[1..], d, c); }
  }

  lemma {:induction false} JoinConcat(a: seq<string>, b: seq<string>, d: char)
    ensures JoinTexts(a + b, d) == JoinTexts(a, d) + (if a != [] && b != [] then [d] else []) + JoinTexts(b, d)
    ensures |a| == 1 ==> JoinTexts(a, d) == a[0]
  {
    if a == [] {
      assert a + b == b;
    } else if |a| == 1 {
      assert (a + b)[1..] == b;
      if b == [] { assert a + b == a; }
    } else {
      JoinConcat(a[1..], b, d);
      assert (a + b)[1..] == a[1..] + b;
    }
  }

  /** The text of a column, a join predicate, a filter and a query, outright. */
  lemma ColumnTextIs(s: SelectInfo)
    ensures SelectText(s) == ToString(s.binding) + "." + ToString(s.colId)
  {
  }

  lemma JoinTextIs(p: PredicateInfo)
    ensures PredicateText(p) == ToString(p.left.binding) + "." + ToString(p.left.colId) + "="
                                + ToString(p.right.binding) + "." + ToString(p.right.colId)
  {
    assert SelectText(p.left) + "=" + SelectText(p.right)
        == SelectText(p.left) + "=" + ToString(p.right.binding) + "." + ToString(p.right.colId);
  }

  lemma FilterTextIs(f: FilterInfo)
    ensures f.comparison == Less ==>
              FilterText(f)
                 == ToString(f.filterColumn.binding) + "." + ToString(f.filterColumn.colId) + "<" + ToString(f.constant)
    ensures f.comparison == Greater ==>
              FilterText(f)
                 == ToString(f.filterColumn.binding) + "." + ToString(f.filterColumn.colId) + ">" + ToString(f.constant)
    ensures f.comparison == Equal ==>
              FilterText(f)
                 == ToString(f.filterColumn.binding) + "." + ToString(f.filterColumn.colId) + "=" + ToString(f.constant)
  {
  }

  /** How the three kinds of filters and a join predicate are read, outright. */
  lemma FilterReads(a: nat, b: nat, c: Comparison, n: nat)
    requires a < UINT && b < UINT && n < ULONG
    ensures c == Less ==>
              ParsePredicate(ToString(a) + "." + ToString(b) + "<" + ToString(n))
                 == Some(Filter(FilterInfo(SelectInfo(0, a, b), n, c)))
    ensures c == Greater ==>
              ParsePredicate(ToString(a) + "." + ToString(b) + ">" + ToString(n))
                 == Some(Filter(FilterInfo(SelectInfo(0, a, b), n, c)))
    ensures c == Equal ==>
              ParsePredicate(ToString(a) + "." + ToString(b) + "=" + ToString(n))
                 == Some(Filter(FilterInfo(SelectInfo(0, a, b), n, c)))
  {
    FilterTextIs(FilterInfo(SelectInfo(0, a, b), n, c));
    FilterRoundTrip(FilterInfo(SelectInfo(0, a, b), n, c));
  }

  lemma JoinReads(a: nat, b: nat, c: nat, d: nat)
    requires a < UINT && b < UINT && c < UINT && d < UINT
    ensures ParsePredicate(ToString(a) + "." + ToString(b) + "=" + ToString(c) + "." + ToString(d))
         == Some(Predicate(PredicateInfo(SelectInfo(0, a, b), SelectInfo(0, c, d))))
  {
    JoinTextIs(PredicateInfo(SelectInfo(0, a, b), SelectInfo(0, c, d)));
    PredicateRoundTrip(PredicateInfo(SelectInfo(0, a, b), SelectInfo(0, c, d)));
  }

  lemma {:induction false} JoinNonempty(parts: seq<string>, d: char)
    requires parts != [] && parts[|parts| - 1] != []
    ensures JoinTexts(parts, d) != []
  {
    if |parts| > 1 { JoinNonempty(parts[1..], d); }
  }

  /** The texts of the predicates and filters. */
  function WhereTexts(q: Query): seq<string> {
    Texts(PredicateText, q.predicates) + Texts(FilterText, q.filters)
  }

  /** The texts hold digits, points and one sign, so no delimiter. */
  lemma WhereWithout(q: Query, c: char)
    requires !IsDigit(c) && c !in {'.', '<', '>', '='}
    ensures forall i :: 0 <= i < |WhereTexts(q)| ==> c !in WhereTexts(q)[i]
  {
    forall i | 0 <= i < |WhereTexts(q)| ensures c !in WhereTexts(q)[i] {
      if i < |q.predicates| {
        InSelectText(q.predicates[i].left, c);
        InSelectText(q.predicates[i].right, c);
      } else {
        var f := q.filters[i - |q.predicates|];
        InSelectText(f.filterColumn, c);
        NoDigit(f.constant, c);
      }
    }
  }

  lemma Regroup(a: string, p: string, m: string, f: string, c: string)
    ensures a + "|" + p + m + f + "|" + c == a + "|" + (p + m + f) + "|" + c
  {
    assert a + "|" + p + m + f == a + "|" + (p + m + f);
  }

  /** The three parts of the text. */
  lemma DumpParts(q: Query)
    ensures DumpText(q) == JoinTexts(Texts(ToString, q.relationIds), ' ') + "|" + JoinTexts(WhereTexts(q), '&') + "|"
                         + JoinTexts(Texts(SelectText, q.selections), ' ')
  {
    var p, f := Texts(PredicateText, q.predicates), Texts(FilterText, q.filters);
    var m := if q.predicates != [] && q.filters != [] then "&" else "";
    JoinConcat(p, f, '&');
    Regroup(JoinTexts(Texts(ToString, q.relationIds), ' '), JoinTexts(p, '&'), m, JoinTexts(f, '&'),
            JoinTexts(Texts(SelectText, q.selections), ' '));
  }

  lemma SameTexts<T>(f: T -> string, values: seq<T>, texts: seq<string>)
    requires |texts| == |values| && forall i :: 0 <= i < |texts| ==> texts[i] == f(values[i])
    ensures texts == Texts(f, values)
  {
  }

  /** The text of a query, outright: its relations, then its join predicates and filters, then its selections. */
  lemma DumpTextIs(q: Query, relations: seq<string>, joins: seq<string>, filters: seq<string>, selections: seq<string>)
    requires |relations| == |q.relationIds| && |selections| == |q.selections|
    requires |joins| == |q.predicates| && |filters| == |q.filters|
    requires forall i :: 0 <= i < |relations| ==> relations[i] == ToString(q.relationIds[i])
    requires forall i :: 0 <= i < |selections| ==> selections[i] == SelectText(q.selections[i])
    requires forall i :: 0 <= i < |joins| ==> joins[i] == PredicateText(q.predicates[i])
    requires forall i :: 0 <= i < |filters| ==> filters[i] == FilterText(q.filters[i])
    ensures DumpText(q) == JoinTexts(relations, ' ') + "|" + JoinTexts(joins + filters, '&') + "|" + JoinTexts(selections, ' ')
  {
    SameTexts(ToString, q.relationIds, relations);
    SameTexts(SelectText, q.selections, selections);
    SameTexts(PredicateText, q.predicates, joins);
    SameTexts(FilterText, q.filters, filters);
    DumpParts(q);
  }

  lemma PartsWithoutBar(q: Query)
    ensures '|' !in JoinTexts(Texts(ToString, q.relationIds), ' ') && '|' !in JoinTexts(WhereTexts(q), '&')
         && '|' !in JoinTexts(Texts(SelectText, q.selections), ' ')
  {
    forall i | 0 <= i < |q.relationIds| ensures '|' !in Texts(ToString, q.relationIds)[i] { NoDigit(q.relationIds[i], '|'); }
    forall i | 0 <= i < |q.selections| ensures '|' !in Texts(SelectText, q.selections)[i] {
      InSelectText(q.selections[i], '|');
    }
    JoinWithout(Texts(ToString, q.relationIds), ' ', '|');
    JoinWithout(Texts(SelectText, q.selections), ' ', '|');
    WhereWithout(q, '|');
    JoinWithout(WhereTexts(q), '&', '|');
  }

  lemma SplitThree(a: string, b: string, c: string)
    requires '|' !in a && '|' !in b && '|' !in c && c != []
    ensures Split(a + "|" + b + "|" + c, '|') == [a, b, c]
  {
    assert [a, b, c][1..] == [b, c] && [b, c][1..] == [c];
    assert JoinTexts([b, c], '|') == b + "|" + c;
    assert JoinTexts([a, b, c], '|') == a + "|" + b + "|" + c;
    SplitJoin([a, b, c], '|');
  }

  lemma SplitTwo(a: string, b: string)
    requires '|' !in a && '|' !in b
    ensures |Split(a + "|" + b + "|", '|')| == 2
  {
    assert a + "|" + b + "|" == a + ['|'] + (b + "|");
    SplitFirst(a, '|', b + "|");
    assert b + "|" == b + ['|'] + [];
    SplitFirst(b, '|', []);
  }

  /** The parts are split again into the texts they were joined from. */
  lemma PartsSplit(q: Query)
    ensures Split(JoinTexts(Texts(ToString, q.relationIds), ' '), ' ') == Texts(ToString, q.relationIds)
    ensures Split(JoinTexts(WhereTexts(q), '&'), '&') == WhereTexts(q)
    ensures Split(JoinTexts(Texts(SelectText, q.selections), ' '), ' ') == Texts(SelectText, q.selections)
  {
    forall i | 0 <= i < |q.relationIds| ensures ' ' !in Texts(ToString, q.relationIds)[i] { NoDigit(q.relationIds[i], ' '); }
    forall i | 0 <= i < |q.selections| ensures ' ' !in Texts(SelectText, q.selections)[i] {
      InSelectText(q.selections[i], ' ');
    }
    WhereWithout(q, '&');
    SplitJoin(Texts(ToString, q.relationIds), ' ');
    SplitJoin(WhereTexts(q), '&');
    SplitJoin(Texts(SelectText, q.selections), ' ');
  }

  /** Resolving puts back the relation ids that printing drops. */
  lemma ResolveUnresolved(q: Query)
    requires Fits(q)
    ensures var u := Query(q.relationIds, UnresolvedPredicates(q.predicates), UnresolvedFilters(q.filters),
                           UnresolvedAll(q.selections));
            Resolvable(u) && ResolveAll(u) == q
  {
    var u := Query(q.relationIds, UnresolvedPredicates(q.predicates), UnresolvedFilters(q.filters),
                   UnresolvedAll(q.selections));
    assert ResolveAll(u).selections == q.selections && ResolveAll(u).predicates == q.predicates;
    assert ResolveAll(u).filters == q.filters;
  }

  lemma WhereRoundTrip(q: Query)
    requires Fits(q)
    ensures AddPredicates(Query(q.relationIds, [], [], []), WhereTexts(q))
         == Some(Query(q.relationIds, UnresolvedPredicates(q.predicates), UnresolvedFilters(q.filters), []))
  {
    PredicatesRoundTrip(Query(q.relationIds, [], [], []), q.predicates, q.filters);
    assert [] + UnresolvedPredicates(q.predicates) == UnresolvedPredicates(q.predicates);
    assert [] + UnresolvedFilters(q.filters) == UnresolvedFilters(q.filters);
  }

  lemma PartsRoundTrip(q: Query)
    requires Fits(q)
    ensures ParseParts(JoinTexts(Texts(ToString, q.relationIds), ' '), JoinTexts(WhereTexts(q), '&'),
                       JoinTexts(Texts(SelectText, q.selections), ' ')) == Some(q)
  {
    PartsSplit(q);
    NumbersRoundTrip(q.relationIds);
    WhereRoundTrip(q);
    assert forall i :: 0 <= i < |q.selections| ==> NumberFits(q.selections[i]);
    SelectionsRoundTrip(q.selections);
    ResolveUnresolved(q);
    ParsePartsFrom(JoinTexts(Texts(ToString, q.relationIds), ' '), JoinTexts(WhereTexts(q), '&'),
                   JoinTexts(Texts(SelectText, q.selections), ' '), q.relationIds,
                   Query(q.relationIds, UnresolvedPredicates(q.predicates), UnresolvedFilters(q.filters), []),
                   UnresolvedAll(q.selections));
  }

  lemma ParsePartsFrom(relations: string, predicates: string, selections: string, ids: seq<nat>, q: Query,
                       s: seq<SelectInfo>)
    requires Numbers(Split(relations, ' ')) == Some(ids) && Selections(Split(selections, ' ')) == Some(s)
    requires AddPredicates(Query(ids, [], [], []), Split(predicates, '&')) == Some(q)
    ensures ParseParts(relations, predicates, selections) == ResolveOption(q.(selections := s))
  {
  }

  lemma ParseThree(a: string, b: string, c: string)
    requires '|' !in a && '|' !in b && '|' !in c && c != []
    ensures ParseQuery(a + "|" + b + "|" + c) == ParseParts(a, b, c)
  {
    SplitThree(a, b, c);
  }

  lemma RoundTrip(q: Query)
    requires q.selections != [] && Fits(q)
    ensures ParseQuery(DumpText(q)) == Some(q)
  {
    DumpParts(q);
    PartsWithoutBar(q);
    JoinNonempty(Texts(SelectText, q.selections), ' ');
    ParseThree(JoinTexts(Texts(ToString, q.relationIds), ' '), JoinTexts(WhereTexts(q), '&'),
               JoinTexts(Texts(SelectText, q.selections), ' '));
    PartsRoundTrip(q);
  }

  // Whatever is parsed fits.

  lemma NumbersFit(tokens: seq<string>)
    requires Numbers(tokens).Some?
    ensures forall i :: 0 <= i < |Numbers(tokens).value| ==> Numbers(tokens).value[i] < UINT
  {
    EachParsed(Unsigned, tokens);
    forall i | 0 <= i < |tokens| ensures Numbers(tokens).value[i] < UINT {
      assert Unsigned(tokens[i]) == Some(Numbers(tokens).value[i]);
    }
  }

  lemma PairFits(raw: string)
    requires ParseRelColPair(raw).Some?
    ensures NumberFits(ParseRelColPair(raw).value)
  {
    NumbersFit(Split(raw, '.'));
  }

  predicate WhereFits(q: Query) {
    && (forall i :: 0 <= i < |q.predicates| ==> NumberFits(q.predicates[i].left) && NumberFits(q.predicates[i].right))
    && (forall i :: 0 <= i < |q.filters| ==> NumberFits(q.filters[i].filterColumn) && q.filters[i].constant < ULONG)
  }

  predicate ParsedOk(x: Parsed) {
    match x
    case Filter(f) => NumberFits(f.filterColumn) && f.constant < ULONG
    case Predicate(p) => NumberFits(p.left) && NumberFits(p.right)
  }

  lemma ParsedFits(raw: string)
    requires ParsePredicate(raw).Some?
    ensures ParsedOk(ParsePredicate(raw).value)
  {
    var relCols := SplitPredicates(raw);
    PairFits(relCols[0]);
    if ParsePredicate(raw).value.Predicate? { PairFits(relCols[1]); }
  }

  lemma {:induction false} AllAddedFit(q: Query, xs: seq<Parsed>)
    requires WhereFits(q) && forall i :: 0 <= i < |xs| ==> ParsedOk(xs[i])
    ensures WhereFits(AddAll(q, xs)) && AddAll(q, xs).relationIds == q.relationIds
    decreases |xs|
  {
    if xs != [] { AllAddedFit(q, xs[..|xs| - 1]); }
  }

  lemma AddedFit(q: Query, raws: seq<string>)
    requires WhereFits(q) && AddPredicates(q, raws).Some?
    ensures WhereFits(AddPredicates(q, raws).value) && AddPredicates(q, raws).value.relationIds == q.relationIds
  {
    var xs := ParseEach(ParsePredicate, raws).value;
    EachParsed(ParsePredicate, raws);
    forall i | 0 <= i < |xs| ensures ParsedOk(xs[i]) { ParsedFits(raws[i]); }
    AllAddedFit(q, xs);
  }

  lemma SelectionsFit(raws: seq<string>)
    requires Selections(raws).Some?
    ensures forall i :: 0 <= i < |Selections(raws).value| ==> NumberFits(Selections(raws).value[i])
  {
    EachParsed(ParseRelColPair, raws);
    forall i | 0 <= i < |raws| ensures NumberFits(Selections(raws).value[i]) { PairFits(raws[i]); }
  }

  lemma ResolvedFits(q: Query)
    requires WhereFits(q) && (forall i :: 0 <= i < |q.selections| ==> NumberFits(q.selections[i])) && Resolvable(q)
    requires forall i :: 0 <= i < |q.relationIds| ==> q.relationIds[i] < UINT
    ensures Fits(ResolveAll(q))
  {
  }

  lemma ParseFits(raw: string)
    requires ParseQuery(raw).Some?
    ensures Fits(ParseQuery(raw).value)
  {
    var parts := Split(raw, '|');
    var ids := Numbers(Split(parts[0], ' ')).value;
    NumbersFit(Split(parts[0], ' '));
    AddedFit(Query(ids, [], [], []), Split(parts[1], '&'));
    SelectionsFit(Split(parts[2], ' '));
    ResolvedFits(AddPredicates(Query(ids, [], [], []), Split(parts[1], '&')).value
                   .(selections := Selections(Split(parts[2], ' ')).value));
  }

  /** Printer and parser undo each other for exactly the queries that select something, name only relations they have,
      carry the relation ids of their bindings and keep to the widths of the source's types. */
  lemma RoundTripIff(q: Query)
    ensures ParseQuery(DumpText(q)) == Some(q) <==> q.selections != [] && Fits(q)
  {
    if q.selections != [] && Fits(q) { RoundTrip(q); }
    if ParseQuery(DumpText(q)) == Some(q) { ParseFits(DumpText(q)); }
    if q.selections == [] {
      DumpParts(q);
      PartsWithoutBar(q);
      SplitTwo(JoinTexts(Texts(ToString, q.relationIds), ' '), JoinTexts(WhereTexts(q), '&'));
      assert DumpText(q) == JoinTexts(Texts(ToString, q.relationIds), ' ') + "|" + JoinTexts(WhereTexts(q), '&') + "|";
    }
  }

  /** What was parsed is printed to a text that parses to the same query. */
  lemma PrintedParsesAgain(raw: string)
    requires ParseQuery(raw).Some? && ParseQuery(raw).value.selections != []
    ensures ParseQuery(DumpText(ParseQuery(raw).value)) == ParseQuery(raw)
  {
    ParseFits(raw);
    RoundTrip(ParseQuery(raw).value);
  }

  /** A sign other than = between two columns is read as an equality all the same. */
  lemma AnySignJoins(left: SelectInfo, c: Comparison, right: SelectInfo)
    requires NumberFits(left) && NumberFits(right)
    ensures ParsePredicate(SelectText(left) + [Sign(c)] + SelectText(right))
         == Some(Predicate(PredicateInfo(Unresolved(left), Unresolved(right))))
  {
    var a, b := SelectText(left), SelectText(right);
    forall d | d in {'<', '>', '=', '.'} ensures (d in a <==> d == '.') && (d in b <==> d == '.') {
      InSelectText(left, d);
      InSelectText(right, d);
    }
    SplitAtSign(a, Sign(c), b);
    SelectRoundTrip(left);
    SelectRoundTrip(right);
  }
}
