/**
 * The record `parse_response` builds from one fetched company page.
 * The CSS/XPath selections are inputs (`Page`); what is modelled is how the
 * selected strings become the values of the item dict, with every default.
 */
module Fields {
  import opened Wrappers
  import opened Text
  import opened NumberPattern

  /** The default every `.get(default=...)` and label check falls back to. */
  const NotFound := "not-found"

  /** The default has no surrounding blanks, so stripping it changes nothing. */
  lemma NotFoundIsStripped()
    ensures Strip(NotFound) == NotFound
  {
    assert forall i :: 0 <= i < |NotFound| ==> !IsSpace(NotFound[i]);
    StripBlankFree(NotFound);
  }

  /**
   * A key of the item dict: one of the thirteen the code writes by name, or
   * any other label entry 5 brings. `KeyOf` reads a label as a key, so a
   * label that spells one of the thirteen names is that same key.
   */
  datatype Key =
    | UrlKey | NameKey | FollowersKey | LogoKey | AboutKey | EmployeesKey
    | WebsiteKey | IndustryKey | SizeKey | HeadquartersKey | TypeKey | FoundedKey | SpecialtiesKey
    | OtherKey(name: string)

  /** The key as written in the item (and in the JSON file). */
  function KeyName(k: Key): string {
    match k
    case UrlKey => "company_url"
    case NameKey => "company_name"
    case FollowersKey => "linkedin_followers_count"
    case LogoKey => "company_logo_url"
    case AboutKey => "about_us"
    case EmployeesKey => "num_of_employees"
    case WebsiteKey => "website"
    case IndustryKey => "industry"
    case SizeKey => "company_size_approx"
    case HeadquartersKey => "headquarters"
    case TypeKey => "type"
    case FoundedKey => "founded"
    case SpecialtiesKey => "specialties"
    case OtherKey(name) => name
  }

  /** The thirteen keys the code writes by name. */
  const FixedKeys: seq<Key> := [UrlKey, NameKey, FollowersKey, LogoKey, AboutKey, EmployeesKey,
    WebsiteKey, IndustryKey, SizeKey, HeadquartersKey, TypeKey, FoundedKey, SpecialtiesKey]

  /** The first of `keys` named `s`, or the label `s` itself when none is. */
  function Lookup(s: string, keys: seq<Key>): (k: Key)
    requires forall i :: 0 <= i < |keys| ==> !keys[i].OtherKey?
    ensures KeyName(k) == s
    ensures !k.OtherKey? ==> k in keys
    ensures k.OtherKey? ==> forall i :: 0 <= i < |keys| ==> KeyName(keys[i]) != s
  {
    if keys == [] then OtherKey(s)
    else if KeyName(keys[0]) == s then keys[0]
    else Lookup(s, keys[1..])
  }

  /** The key a string names: a fixed key exactly when the string is that key's name. */
  function KeyOf(s: string): (k: Key)
    ensures KeyName(k) == s
    ensures !k.OtherKey? ==> k in FixedKeys
    ensures k.OtherKey? ==> forall i :: 0 <= i < |FixedKeys| ==> KeyName(FixedKeys[i]) != s
  {
    Lookup(s, FixedKeys)
  }

  /** The six header keys read back from their names. */
  lemma KeyOfHeaderName(k: Key)
    requires k in {UrlKey, NameKey, FollowersKey, LogoKey, AboutKey, EmployeesKey}
    ensures KeyOf(KeyName(k)) == k
  {
    assert k in FixedKeys;
  }

  /** The seven detail keys read back from their names. */
  lemma KeyOfDetailName(k: Key)
    requires k in {WebsiteKey, IndustryKey, SizeKey, HeadquartersKey, TypeKey, FoundedKey, SpecialtiesKey}
    ensures KeyOf(KeyName(k)) == k
  {
    assert k in FixedKeys;
  }

  /**
   * A key as it can stand in a Python dict: a name that spells one of the
   * thirteen is that fixed key, never `OtherKey` of it.
   */
  predicate Canonical(k: Key) {
    k.OtherKey? ==> KeyOf(k.name).OtherKey?
  }

  /** The keys of an item dict or of a saved record: one key per name. */
  type ItemKey = k: Key | Canonical(k) witness UrlKey

  /** Reading a key's name back gives the key: distinct names are distinct dict keys. */
  lemma KeyOfKeyName(k: Key)
    requires Canonical(k)
    ensures KeyOf(KeyName(k)) == k
  {
    match k
    case OtherKey(_) =>
    case UrlKey => KeyOfHeaderName(k);
    case NameKey => KeyOfHeaderName(k);
    case FollowersKey => KeyOfHeaderName(k);
    case LogoKey => KeyOfHeaderName(k);
    case AboutKey => KeyOfHeaderName(k);
    case EmployeesKey => KeyOfHeaderName(k);
    case _ => KeyOfDetailName(k);
  }

  /** Two item keys with the same name are the same key, so a record has at most one entry per JSON key. */
  lemma ItemKeyByName(k1: ItemKey, k2: ItemKey)
    requires KeyName(k1) == KeyName(k2)
    ensures k1 == k2
  {
    KeyOfKeyName(k1);
    KeyOfKeyName(k2);
  }

  /** A value stored in the item dict: text, a parsed count, or Python's None. */
  datatype FieldValue = Str(text: string) | Num(n: nat) | Null

  /** The item dict; entry 5's label is a key chosen by the page, so a map and not a record type. */
  type Record = map<ItemKey, FieldValue>

  /**
   * One `.core-section-container__content .mb-2` element: the text of its link
   * (`a::text`, read only for entry 0) and its `.text-md::text` strings, which
   * are a label followed by its value.
   */
  datatype DetailEntry = DetailEntry(linkText: Option<string>, texts: seq<string>)

  /** What the selectors return for one page; None where `.get()` finds nothing. */
  datatype Page = Page(
    name: Option<string>,
    followers: Option<string>,
    logo: Option<string>,
    about: Option<string>,
    employees: Option<string>,
    details: seq<DetailEntry>)

  /** A parser's value, or the IndexError it lets escape. */
  datatype Parsed<T> = Returned(value: T) | IndexError

  /**
   * The follower count: the first blank-separated token with its commas
   * removed, as a number. The literal 'not-found' and a token that is not a
   * number give None (the caught ValueError); blank text makes `split()[0]`
   * raise an IndexError that is not caught.
   */
  function FollowerCount(text: Option<string>): (r: Parsed<FieldValue>)
    ensures text.GetOr(NotFound) == NotFound ==> r == Returned(Null)
    ensures r.IndexError? <==> text.GetOr(NotFound) != NotFound && AllSpace(text.GetOr(NotFound))
    ensures r.Returned? ==> r.value.Null? || r.value.Num?
    ensures r.Returned? && r.value.Num? ==>
      var t := text.GetOr(NotFound);
      t != NotFound && FirstToken(t).Some? && ParseDecimal(RemoveCommas(FirstToken(t).value)) == Some(r.value.n)
    ensures var t := text.GetOr(NotFound);
      t != NotFound && FirstToken(t).Some? ==> r == Returned(TokenCount(FirstToken(t).value))
  {
    var t := text.GetOr(NotFound);
    if t == NotFound then Returned(Null)
    else match FirstToken(t)
      case None => IndexError
      case Some(w) => Returned(TokenCount(w))
  }

  /**
   * `int(w.strip().replace(',', ''))` for a blank-free token `w`, None on
   * ValueError. The `.strip()` is left out: on a token it changes nothing
   * (Text.StripBlankFree).
   */
  function TokenCount(w: string): (r: FieldValue)
    requires forall i :: 0 <= i < |w| ==> !IsSpace(w[i])
    ensures r.Null? || r.Num?
    ensures r.Num? <==> ParseDecimal(RemoveCommas(w)).Some?
    ensures r.Num? ==> ParseDecimal(RemoveCommas(w)) == Some(r.n)
  {
    match ParseDecimal(RemoveCommas(w))
    case Some(n) => Num(n)
    case None => Null
  }

  /**
   * The employee count: the leftmost match of `\d{1,3}(?:,\d{3})*` in the
   * stripped text, commas removed, as a number; without a match, the stripped
   * text itself.
   */
  function EmployeeCount(text: Option<string>): (r: FieldValue)
    ensures r.Num? <==> exists i :: 0 <= i < |Strip(text.GetOr(NotFound))| && IsDigit(Strip(text.GetOr(NotFound))[i])
    ensures r.Str? ==> r.text == Strip(text.GetOr(NotFound))
    ensures !r.Null?
    ensures r.Num? ==>
      var t := Strip(text.GetOr(NotFound));
      && FindNumber(t, 0).Some?
      && var sp := FindNumber(t, 0).value;
      && IsNumber(t[sp.start..sp.end])
      && ParseDecimal(RemoveCommas(t[sp.start..sp.end])) == Some(r.n)
  {
    var t := Strip(text.GetOr(NotFound));
    match FindNumber(t, 0)
    case None => Str(t)
    case Some(sp) =>
      FindNumberIsGreedyMatch(t, 0);
      NumberIsDecimal(t[sp.start..sp.end]);
      Num(ParseDecimal(RemoveCommas(t[sp.start..sp.end])).value)
  }

  /**
   * A run of more than three digits with no comma after the third is cut
   * there: "12345" gives 123, not 12345.
   */
  lemma EmployeeCountCutsUngrouped(t: string)
    requires |t| >= 4 && IsDigit(t[0]) && IsDigit(t[1]) && IsDigit(t[2]) && IsDigit(t[3])
    requires !IsSpace(t[|t| - 1])
    ensures EmployeeCount(Some(t)) == Num(100 * DigitValue(t[0]) + 10 * DigitValue(t[1]) + DigitValue(t[2]))
  {
    StripTrimmed(t);
    FindNumberUngrouped(t);
    ThreeDigits(t[0..3]);
    assert Some(t).GetOr(NotFound) == t;
    assert EmployeeCount(Some(t)) == Num(ParseDecimal(RemoveCommas(t[0..3])).value);
  }

  /** `company_details[i]`, or None where the index raises. */
  function Entry(d: seq<DetailEntry>, i: nat): (e: Option<DetailEntry>)
    ensures e.Some? <==> i < |d|
    ensures e.Some? ==> e.value == d[i]
  {
    if i < |d| then Some(d[i]) else None
  }

  /** A label as the code compares it: `.lower().strip()`. */
  function NormalLabel(text: string): string {
    Strip(Lower(text))
  }

  /**
   * A detail entry as the label checks read it: the normalised label
   * (`texts[0]`) and the stripped value (`texts[1]`), None for the value when
   * there is no second string.
   */
  datatype Labelled = Labelled(name: string, value: Option<string>)

  /** `texts[0]` and `texts[1]` of `company_details[i]`; None when the entry or its label is missing. */
  function Reading(e: Option<DetailEntry>): (r: Option<Labelled>)
    ensures r.Some? <==> e.Some? && e.value.texts != []
    ensures r.Some? ==> r.value.name == NormalLabel(e.value.texts[0])
    ensures r.Some? ==> (r.value.value.Some? <==> |e.value.texts| >= 2)
    ensures r.Some? && r.value.value.Some? ==> r.value.value.value == Strip(e.value.texts[1])
  {
    if e.Some? && e.value.texts != [] then
      Some(Labelled(NormalLabel(e.value.texts[0]),
                    if |e.value.texts| > 1 then Some(Strip(e.value.texts[1])) else None))
    else None
  }

  /** The stripped value of a reading; "" where `texts[1]` raises. */
  function ValueOr(r: Option<Labelled>): string {
    if r.Some? && r.value.value.Some? then r.value.value.value else ""
  }

  /**
   * Entry 0: the stripped link text ('not-found' without a link, which
   * stripping leaves as it is: NotFoundIsStripped); "" without the entry.
   */
  function Website(e: Option<DetailEntry>): (r: string)
    ensures e.None? ==> r == ""
    ensures e.Some? ==> r == Strip(e.value.linkText.GetOr(NotFound))
    ensures e.Some? && e.value.linkText.None? ==> r == NotFound
  {
    match e
    case None => ""
    case Some(entry) =>
      NotFoundIsStripped();
      Strip(entry.linkText.GetOr(NotFound))
  }

  /** Entry 2: the first word of the stripped value ("51-200 employees" gives "51-200"), "" where it raises. */
  function SizeApprox(r: Option<Labelled>): (w: string)
    ensures forall i :: 0 <= i < |w| ==> !IsSpace(w[i])
    ensures ValueOr(r) == "" ==> w == ""
    ensures w == "" ==> AllSpace(ValueOr(r))
    ensures w != "" ==>
      var v, lead := ValueOr(r), LeadingBlanks(ValueOr(r));
      && lead + |w| <= |v|
      && v[lead..lead + |w|] == w
      && (lead + |w| == |v| || IsSpace(v[lead + |w|]))
  {
    match FirstToken(ValueOr(r))
    case Some(w) =>
      FirstTokenIsFirstWord(ValueOr(r));
      w
    case None => ""
  }

  /** Entry 3: the value only if the label reads 'headquarters', otherwise 'not-found'; "" where it raises. */
  function Headquarters(r: Option<Labelled>): (h: string)
    ensures r.None? ==> h == ""
    ensures r.Some? && r.value.name != KeyName(HeadquartersKey) ==> h == NotFound
    ensures r.Some? && r.value.name == KeyName(HeadquartersKey) ==> h == ValueOr(r)
  {
    if r.None? then ""
    else if r.value.name == KeyName(HeadquartersKey) then ValueOr(r)
    else NotFound
  }

  /**
   * The key entry 5 writes under: its label, provided it also has a value
   * (otherwise the IndexError comes before the assignment).
   */
  function DynamicKey(r5: Option<Labelled>): (k: Option<ItemKey>)
    ensures k.Some? <==> r5.Some? && r5.value.value.Some?
    ensures k.Some? ==> KeyName(k.value) == r5.value.name
  {
    if r5.Some? && r5.value.value.Some? then
      var key := KeyOf(r5.value.name);
      assert key.OtherKey? ==> key.name == r5.value.name;
      Some(key)
    else None
  }

  /** The label entry 5 of a detail list writes under, if any. */
  function DetailKey(d: seq<DetailEntry>): Option<ItemKey> {
    DynamicKey(Reading(Entry(d, 5)))
  }

  /** One statement `company_item[key] = value`. */
  datatype Assignment = Assignment(key: ItemKey, value: FieldValue)

  /** What the last statement of `script` that writes `k` stores; None when none writes it. */
  function LastValue(script: seq<Assignment>, k: Key): Option<FieldValue>
    decreases |script|
  {
    if script == [] then None
    else if script[|script| - 1].key == k then Some(script[|script| - 1].value)
    else LastValue(script[..|script| - 1], k)
  }

  /** The dict the statements build, starting from `{}` and running them in order. */
  function Perform(script: seq<Assignment>): Record
    decreases |script|
  {
    if script == [] then map[]
    else Perform(script[..|script| - 1])[script[|script| - 1].key := script[|script| - 1].value]
  }

  /**
   * In the built dict a key is present exactly when some statement writes it,
   * and holds what the last such statement stored.
   */
  lemma {:induction false} PerformLastValue(script: seq<Assignment>, k: Key)
    ensures k in Perform(script) <==> LastValue(script, k).Some?
    ensures k in Perform(script) ==> Some(Perform(script)[k]) == LastValue(script, k)
    decreases |script|
  {
    if script != [] {
      PerformLastValue(script[..|script| - 1], k);
    }
  }

  /** A statement decides its key when no later statement writes that key. */
  lemma {:induction false} LastValueAt(script: seq<Assignment>, i: nat)
    requires i < |script|
    requires forall j :: i < j < |script| ==> script[j].key != script[i].key
    ensures LastValue(script, script[i].key) == Some(script[i].value)
    decreases |script|
  {
    if i < |script| - 1 {
      var front := script[..|script| - 1];
      assert front[i] == script[i];
      LastValueAt(front, i);
    }
  }

  /** A key no statement writes stays absent. */
  lemma {:induction false} LastValueUnwritten(script: seq<Assignment>, k: Key)
    requires forall j :: 0 <= j < |script| ==> script[j].key != k
    ensures LastValue(script, k).None?
    decreases |script|
  {
    if script != [] {
      LastValueUnwritten(script[..|script| - 1], k);
    }
  }

  /** Running `a` then `b`: `b` decides every key it writes, `a` the rest. */
  lemma {:induction false} LastValueAppend(a: seq<Assignment>, b: seq<Assignment>, k: Key)
    ensures LastValue(a + b, k) == if LastValue(b, k).Some? then LastValue(b, k) else LastValue(a, k)
    decreases |b|
  {
    if b == [] {
      assert a + b == a;
    } else {
      var front := b[..|b| - 1];
      assert (a + b)[..|a + b| - 1] == a + front;
      LastValueAppend(a, front, k);
    }
  }

  /** The six statements before the detail block, in the code's order. */
  function HeaderScript(url: string, name: string, followers: FieldValue, logo: string, about: string,
                        employees: FieldValue): seq<Assignment> {
    [Assignment(UrlKey, Str(url)), Assignment(NameKey, Str(name)), Assignment(FollowersKey, followers),
     Assignment(LogoKey, Str(logo)), Assignment(AboutKey, Str(about)), Assignment(EmployeesKey, employees)]
  }

  /** The statements for entries 0 to 4, each under its fixed key. */
  function PositionalScript(website: string, industry: string, size: string, headquarters: string,
                            kind: string): seq<Assignment> {
    [Assignment(WebsiteKey, Str(website)), Assignment(IndustryKey, Str(industry)), Assignment(SizeKey, Str(size)),
     Assignment(HeadquartersKey, Str(headquarters)), Assignment(TypeKey, Str(kind))]
  }

  /** 'founded' and 'specialties' both set to `v`. */
  function MarkBoth(v: string): seq<Assignment> {
    [Assignment(FoundedKey, Str(v)), Assignment(SpecialtiesKey, Str(v))]
  }

  /** Entry 5's own statement: its label becomes a key holding its value, when both exist. */
  function LabelWrite(key5: Option<ItemKey>, value5: string): seq<Assignment> {
    if key5.Some? then [Assignment(key5.value, Str(value5))] else []
  }

  /**
   * What follows entry 5's statement: after 'founded', entry 6 must be
   * labelled 'specialties'; a label other than those two marks both
   * 'not-found'; an IndexError in the block (entry 5 or entry 6 missing, or
   * without a value) ends in the handler that sets both to "".
   */
  function FoundedSpecialtiesWrites(key5: Option<ItemKey>, r6: Option<Labelled>): seq<Assignment> {
    match key5
    case None => MarkBoth("")
    case Some(key) =>
      if key == FoundedKey then
        if r6.None? then MarkBoth("")
        else if r6.value.name == KeyName(SpecialtiesKey) then
          if r6.value.value.Some? then [Assignment(SpecialtiesKey, Str(r6.value.value.value))]
          else MarkBoth("")
        else [Assignment(SpecialtiesKey, Str(NotFound))]
      else if key != SpecialtiesKey then MarkBoth(NotFound)
      else []
  }

  /** The statements for entries 5 and 6. */
  function EntryScript(key5: Option<ItemKey>, value5: string, r6: Option<Labelled>): seq<Assignment> {
    LabelWrite(key5, value5) + FoundedSpecialtiesWrites(key5, r6)
  }

  /** Entry 6 ends the block in the handler: it is missing, or labelled 'specialties' without a value. */
  predicate Entry6Fails(r6: Option<Labelled>) {
    r6.None? || (r6.value.name == KeyName(SpecialtiesKey) && r6.value.value.None?)
  }

  /** 'founded' after the block, case by case; None when the block leaves it unset. */
  function FoundedAfter(key5: Option<ItemKey>, value5: string, r6: Option<Labelled>): Option<FieldValue> {
    if key5.None? then Some(Str(""))
    else if key5 == Some(FoundedKey) then (if Entry6Fails(r6) then Some(Str("")) else Some(Str(value5)))
    else if key5 == Some(SpecialtiesKey) then None
    else Some(Str(NotFound))
  }

  /** 'specialties' after the block, case by case. */
  function SpecialtiesAfter(key5: Option<ItemKey>, value5: string, r6: Option<Labelled>): Option<FieldValue> {
    if key5.None? then Some(Str(""))
    else if key5 == Some(FoundedKey) then
      if Entry6Fails(r6) then Some(Str(""))
      else if r6.value.name == KeyName(SpecialtiesKey) then Some(Str(r6.value.value.value))
      else Some(Str(NotFound))
    else if key5 == Some(SpecialtiesKey) then Some(Str(value5))
    else Some(Str(NotFound))
  }

  /** The statements of entries 5 and 6 leave 'founded' and 'specialties' as the case table says. */
  lemma EntryScriptFoundedSpecialties(key5: Option<ItemKey>, value5: string, r6: Option<Labelled>)
    ensures LastValue(EntryScript(key5, value5, r6), FoundedKey) == FoundedAfter(key5, value5, r6)
    ensures LastValue(EntryScript(key5, value5, r6), SpecialtiesKey) == SpecialtiesAfter(key5, value5, r6)
  {
    var own, tail := LabelWrite(key5, value5), FoundedSpecialtiesWrites(key5, r6);
    LastValueAppend(own, tail, FoundedKey);
    LastValueAppend(own, tail, SpecialtiesKey);
    LastValueLabelWrite(key5, value5, FoundedKey);
    LastValueLabelWrite(key5, value5, SpecialtiesKey);
    LastValueShort(tail, FoundedKey);
    LastValueShort(tail, SpecialtiesKey);
  }

  /** Every other key: written by entries 5 and 6 only when it is entry 5's label. */
  lemma EntryScriptOther(key5: Option<ItemKey>, value5: string, r6: Option<Labelled>, k: Key)
    requires k != FoundedKey && k != SpecialtiesKey
    ensures LastValue(EntryScript(key5, value5, r6), k) == if key5 == Some(k) then Some(Str(value5)) else None
  {
    var own, tail := LabelWrite(key5, value5), FoundedSpecialtiesWrites(key5, r6);
    LastValueAppend(own, tail, k);
    LastValueUnwritten(tail, k);
    LastValueLabelWrite(key5, value5, k);
  }

  /** Entry 5's own statement writes its label and nothing else. */
  lemma LastValueLabelWrite(key5: Option<ItemKey>, value5: string, k: Key)
    ensures LastValue(LabelWrite(key5, value5), k) == if key5 == Some(k) then Some(Str(value5)) else None
  {
    if key5.Some? {
      assert LabelWrite(key5, value5)[..0] == [];
    }
  }

  /** In a script of at most two statements, the later one wins. */
  lemma LastValueShort(script: seq<Assignment>, k: Key)
    requires |script| <= 2
    ensures LastValue(script, k) ==
      if |script| == 2 && script[1].key == k then Some(script[1].value)
      else if |script| >= 1 && script[0].key == k then Some(script[0].value)
      else None
  {
    if |script| == 2 {
      assert script[..1][..0] == [];
    } else if |script| == 1 {
      assert script[..0] == [];
    }
  }

  /** Everything the item takes from a page besides the follower count, read as the code reads it. */
  datatype Extracted = Extracted(
    name: string, logo: string, about: string, employees: FieldValue,
    website: string, industry: string, size: string, headquarters: string, kind: string,
    key5: Option<ItemKey>, value5: string, r6: Option<Labelled>)

  /** Each field read from its own selection, or from its own entry of the detail list. */
  function Extract(page: Page): Extracted {
    var d := page.details;
    var r5 := Reading(Entry(d, 5));
    Extracted(
      Strip(page.name.GetOr(NotFound)), page.logo.GetOr(NotFound), Strip(page.about.GetOr(NotFound)),
      EmployeeCount(page.employees),
      Website(Entry(d, 0)), ValueOr(Reading(Entry(d, 1))), SizeApprox(Reading(Entry(d, 2))),
      Headquarters(Reading(Entry(d, 3))), ValueOr(Reading(Entry(d, 4))),
      DynamicKey(r5), ValueOr(r5), Reading(Entry(d, 6)))
  }

  /** All statements of `parse_response` for one page, in the code's order. */
  function ItemScript(url: string, followers: FieldValue, x: Extracted): seq<Assignment> {
    HeaderScript(url, x.name, followers, x.logo, x.about, x.employees)
      + PositionalScript(x.website, x.industry, x.size, x.headquarters, x.kind)
      + EntryScript(x.key5, x.value5, x.r6)
  }

  /** A field of the thirteen as read from the page, before entry 5's label can override it. */
  function ReadField(url: string, followers: FieldValue, x: Extracted, k: Key): Option<FieldValue> {
    match k
    case UrlKey => Some(Str(url))
    case NameKey => Some(Str(x.name))
    case FollowersKey => Some(followers)
    case LogoKey => Some(Str(x.logo))
    case AboutKey => Some(Str(x.about))
    case EmployeesKey => Some(x.employees)
    case WebsiteKey => Some(Str(x.website))
    case IndustryKey => Some(Str(x.industry))
    case SizeKey => Some(Str(x.size))
    case HeadquartersKey => Some(Str(x.headquarters))
    case TypeKey => Some(Str(x.kind))
    case _ => None
  }

  /**
   * The item read key by key: 'founded' and 'specialties' from the case
   * table; entry 5's label holds entry 5's value, overriding a field of the
   * same name; each other field of the thirteen holds what was read for it;
   * any other key is absent.
   */
  function FieldOf(url: string, followers: FieldValue, x: Extracted, k: Key): Option<FieldValue> {
    if k == FoundedKey then FoundedAfter(x.key5, x.value5, x.r6)
    else if k == SpecialtiesKey then SpecialtiesAfter(x.key5, x.value5, x.r6)
    else if x.key5 == Some(k) then Some(Str(x.value5))
    else ReadField(url, followers, x, k)
  }

  /** The header and entries 0 to 4 write each field of the eleven once, and nothing else. */
  lemma BeforeEntryFive(url: string, followers: FieldValue, x: Extracted, k: Key)
    requires k != FoundedKey && k != SpecialtiesKey
    ensures LastValue(HeaderScript(url, x.name, followers, x.logo, x.about, x.employees)
      + PositionalScript(x.website, x.industry, x.size, x.headquarters, x.kind), k) == ReadField(url, followers, x, k)
  {
    var h := HeaderScript(url, x.name, followers, x.logo, x.about, x.employees);
    var p := PositionalScript(x.website, x.industry, x.size, x.headquarters, x.kind);
    LastValueAppend(h, p, k);
    match k
    case UrlKey => LastValueAt(h, 0); LastValueUnwritten(p, k);
    case NameKey => LastValueAt(h, 1); LastValueUnwritten(p, k);
    case FollowersKey => LastValueAt(h, 2); LastValueUnwritten(p, k);
    case LogoKey => LastValueAt(h, 3); LastValueUnwritten(p, k);
    case AboutKey => LastValueAt(h, 4); LastValueUnwritten(p, k);
    case EmployeesKey => LastValueAt(h, 5); LastValueUnwritten(p, k);
    case WebsiteKey => LastValueAt(p, 0);
    case IndustryKey => LastValueAt(p, 1);
    case SizeKey => LastValueAt(p, 2);
    case HeadquartersKey => LastValueAt(p, 3);
    case TypeKey => LastValueAt(p, 4);
    case OtherKey(_) => LastValueUnwritten(p, k); LastValueUnwritten(h, k);
  }

  /** Running the statements in order gives the key-by-key reading. */
  lemma ItemScriptField(url: string, followers: FieldValue, x: Extracted, k: Key)
    ensures LastValue(ItemScript(url, followers, x), k) == FieldOf(url, followers, x, k)
  {
    var h := HeaderScript(url, x.name, followers, x.logo, x.about, x.employees);
    var p := PositionalScript(x.website, x.industry, x.size, x.headquarters, x.kind);
    var e := EntryScript(x.key5, x.value5, x.r6);
    LastValueAppend(h + p, e, k);
    if k == FoundedKey || k == SpecialtiesKey {
      EntryScriptFoundedSpecialties(x.key5, x.value5, x.r6);
      LastValueAppend(h, p, k);
      LastValueUnwritten(h, k);
      LastValueUnwritten(p, k);
    } else {
      EntryScriptOther(x.key5, x.value5, x.r6, k);
      BeforeEntryFive(url, followers, x, k);
    }
  }

  /** A header field of the built item keeps its value unless entry 5's label is that field's name. */
  lemma ItemKeepsHeader(url: string, followers: FieldValue, x: Extracted)
    ensures var r := Perform(ItemScript(url, followers, x));
      && UrlKey in r && NameKey in r && FollowersKey in r && EmployeesKey in r
      && (x.key5 != Some(UrlKey) ==> r[UrlKey] == Str(url))
      && (x.key5 != Some(NameKey) ==> r[NameKey] == Str(x.name))
      && (x.key5 != Some(FollowersKey) ==> r[FollowersKey] == followers)
      && (x.key5 != Some(EmployeesKey) ==> r[EmployeesKey] == x.employees)
  {
    var script := ItemScript(url, followers, x);
    ItemScriptField(url, followers, x, UrlKey);
    PerformLastValue(script, UrlKey);
    ItemScriptField(url, followers, x, NameKey);
    PerformLastValue(script, NameKey);
    ItemScriptField(url, followers, x, FollowersKey);
    PerformLastValue(script, FollowersKey);
    ItemScriptField(url, followers, x, EmployeesKey);
    PerformLastValue(script, EmployeesKey);
  }

  /**
   * The item for one page, requested on behalf of `url` and with the follower
   * count already parsed. It is built whatever the name is: a page without a
   * name gives 'not-found' and is still an item. A header field keeps its
   * value unless entry 5's label is that field's name.
   */
  function CompanyItem(url: string, page: Page, followers: FieldValue): (r: Record)
    ensures var key := DetailKey(page.details);
      && UrlKey in r && NameKey in r && FollowersKey in r && EmployeesKey in r
      && (key != Some(UrlKey) ==> r[UrlKey] == Str(url))
      && (key != Some(NameKey) ==> r[NameKey] == Str(Strip(page.name.GetOr(NotFound))))
      && (key != Some(FollowersKey) ==> r[FollowersKey] == followers)
      && (key != Some(EmployeesKey) ==> r[EmployeesKey] == EmployeeCount(page.employees))
  {
    var x := Extract(page);
    ItemKeepsHeader(url, followers, x);
    Perform(ItemScript(url, followers, x))
  }

  /** The item for a page holds, under every key, what the key-by-key reading says. */
  lemma CompanyItemFields(url: string, page: Page, followers: FieldValue, k: Key)
    ensures var r := CompanyItem(url, page, followers);
      var v := FieldOf(url, followers, Extract(page), k);
      (k in r <==> v.Some?) && (k in r ==> Some(r[k]) == v)
  {
    ItemScriptField(url, followers, Extract(page), k);
    PerformLastValue(ItemScript(url, followers, Extract(page)), k);
  }
}
