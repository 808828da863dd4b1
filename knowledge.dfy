/**
 * The loaded knowledge dictionary shared by the four knowledge-base
 * variants, and the scanning patterns they all use: find the first entry of
 * a section that matches, and collect one line per matching entry.
 *
 * A section (`cuisine_types`, `categories`, ...) is a dictionary from an
 * entry's name to the entry; it is kept as a sequence of (name, entry) pairs
 * in the dictionary's insertion order, with distinct names. A missing
 * section reads as an empty one (`knowledge.get(section, {})`).
 */
module Knowledge {
  import opened Wrappers
  import opened Text

  /**
   * The fields the tools read from an entry with `info.get(...)`. A list the
   * entry lacks reads as the empty list, which every tool treats exactly
   * like an empty list that is present; scalar fields keep their absence,
   * because the tools substitute different defaults for them.
   */
  datatype Record = Record(
    categories: seq<string>,
    restaurants: seq<string>,
    foodTypes: seq<string>,
    serveTimes: seq<string>,
    specialties: seq<string>,
    count: Option<int>,
    cuisine: Option<string>,
    cuisineType: Option<string>,
    location: Option<string>,
    description: Option<string>)

  /** The `{}` a lookup of an absent name yields. */
  const EmptyRecord := Record([], [], [], [], [], None, None, None, None, None)

  /** An entry is a JSON object, or some other JSON value on which `.get` raises `AttributeError`. */
  datatype Entry = Object(record: Record) | NotObject

  predicate DistinctNames<T>(s: seq<(string, T)>) {
    forall i, j | 0 <= i < j < |s| :: s[i].0 != s[j].0
  }

  type Section = s: seq<(string, Entry)> | DistinctNames(s) witness []

  /** `search_insights.pizza_info` when it is a non-empty object: each value as `str` renders it, `None` when absent. */
  datatype PizzaInfo = PizzaInfo(
    category: Option<string>,
    cuisine: Option<string>,
    restaurant: Option<string>,
    location: Option<string>,
    count: Option<string>,
    foodType: Option<string>,
    serveTime: Option<string>)

  datatype Knowledge = Knowledge(
    cuisineTypes: Section,
    categories: Section,
    restaurants: Section,
    dietaryOptions: Section,
    foodTypes: Section,
    locations: Section,
    /** `None` when `pizza_info` is missing or empty, i.e. falsy. */
    pizzaInfo: Option<PizzaInfo>,
    /** `search_insights.common_searches`: each term with its value as `str` renders it. */
    commonSearches: seq<(string, string)>)

  /** The `AttributeError` raised by `.get` on the entry `name` of `section`. */
  datatype Fault = NotAnObject(section: string, name: string)

  /**
   * What a tool that catches its exceptions returns: its text, or
   * `context + ": " + str(e)`; the exception's own message is not modelled.
   */
  datatype ToolOutput = Text(text: string) | ErrorText(context: string, fault: Fault)

  /** `str(value)` of a count, or `default` when the key is absent. */
  function CountOr(count: Option<int>, default: string): string {
    match count
    case Some(n) => IntToString(n)
    case None => default
  }

  /** `str(value)` of an optional value: `None` when absent. */
  function Str(v: Option<string>): string {
    v.GetOr("None")
  }

  /** `any(keyword in query_lower for keyword in keywords)`. */
  predicate AnyIn(queryLower: string, keywords: seq<string>) {
    exists i :: 0 <= i < |keywords| && Contains(queryLower, keywords[i])
  }

  /** An entry's name, lower-cased, occurs in the lower-cased query. */
  predicate NameIn(queryLower: string, name: string) {
    Contains(queryLower, Lower(name))
  }

  // ---------------------------------------------------------------------
  // First match: a loop over a section that returns at the first hit.

  /** The position of the first element satisfying `p`. */
  function FirstWhere<T>(s: seq<T>, p: T -> bool): (r: Option<nat>)
    ensures r.Some? ==> r.value < |s| && p(s[r.value]) && forall j | 0 <= j < r.value :: !p(s[j])
    ensures r.None? <==> forall j | 0 <= j < |s| :: !p(s[j])
  {
    if s == [] then None
    else if p(s[0]) then Some(0)
    else match FirstWhere(s[1..], p)
      case None => None
      case Some(i) => Some(i + 1)
  }

  /** The scan itself, stopping at the first element that satisfies `p`. */
  method FindFirst<T>(s: seq<T>, p: T -> bool) returns (r: Option<nat>)
    ensures r == FirstWhere(s, p)
  {
    var i := 0;
    while i < |s|
      invariant 0 <= i <= |s|
      invariant forall j | 0 <= j < i :: !p(s[j])
    {
      if p(s[i]) {
        return Some(i);
      }
      i := i + 1;
    }
    return None;
  }

  // ---------------------------------------------------------------------
  // Collecting: a loop over a section that appends a line per entry it
  // keeps, and stops at the first exception.

  /**
   * What one entry contributes: an exception, nothing, or one line.
   */
  type Out = ((string, Entry)) -> Result<Option<string>, Fault>

  /** The lines the loop appends over `s`, or the first exception it meets. */
  function Collect(s: seq<(string, Entry)>, out: Out): (r: Result<seq<string>, Fault>)
    ensures r.Success? <==> forall i | 0 <= i < |s| :: out(s[i]).Success?
    ensures r.Failure? ==> exists i | 0 <= i < |s| ::
      out(s[i]) == Failure(r.error) && forall j | 0 <= j < i :: out(s[j]).Success?
    ensures r.Success? ==> |r.value| <= |s|
    ensures r.Success? ==> forall l | l in r.value :: exists i | 0 <= i < |s| :: out(s[i]) == Success(Some(l))
    ensures r == Success([]) <==> forall i | 0 <= i < |s| :: out(s[i]) == Success(None)
  {
    if s == [] then Success([])
    else
      var last := |s| - 1;
      match Collect(s[..last], out)
      case Failure(f) => Failure(f)
      case Success(lines) =>
        match out(s[last])
        case Failure(f) => Failure(f)
        case Success(None) => Success(lines)
        case Success(Some(l)) => Success(lines + [l])
  }

  /** Once the loop has raised, later entries change nothing. */
  lemma {:induction false} CollectFailureSticks(s: seq<(string, Entry)>, k: nat, out: Out)
    requires k <= |s|
    requires Collect(s[..k], out).Failure?
    ensures Collect(s, out) == Collect(s[..k], out)
    decreases |s| - k
  {
    if k < |s| {
      assert s[..k + 1][..k] == s[..k];
      CollectFailureSticks(s, k + 1, out);
    } else {
      assert s[..k] == s;
    }
  }

  /** When every entry yields a line, the loop yields exactly those lines, in order. */
  lemma {:induction false} CollectEvery(s: seq<(string, Entry)>, out: Out)
    requires forall i | 0 <= i < |s| :: out(s[i]).Success? && out(s[i]).value.Some?
    ensures Collect(s, out).Success?
    ensures |Collect(s, out).value| == |s|
    ensures forall i | 0 <= i < |s| :: Collect(s, out).value[i] == out(s[i]).value.value
  {
    if s != [] {
      var last := |s| - 1;
      CollectEvery(s[..last], out);
    }
  }

  /** The loop: `for name, info in section.items(): ... lines.append(...)`. */
  method CollectLines(s: seq<(string, Entry)>, out: Out) returns (r: Result<seq<string>, Fault>)
    ensures r == Collect(s, out)
  {
    var lines: seq<string> := [];
    var i := 0;
    while i < |s|
      invariant 0 <= i <= |s|
      invariant Collect(s[..i], out) == Success(lines)
    {
      assert s[..i + 1][..i] == s[..i];
      var o := out(s[i]);
      if o.Failure? {
        CollectFailureSticks(s, i + 1, out);
        return Failure(o.error);
      }
      if o.value.Some? {
        lines := lines + [o.value.value];
      }
      i := i + 1;
    }
    assert s[..i] == s;
    return Success(lines);
  }

  /** The text a loop of `result += line + "\n"` leaves after `header`. */
  function Listed(header: string, r: Result<seq<string>, Fault>): Result<string, Fault> {
    match r
    case Success(lines) => Success(header + Unlines(lines))
    case Failure(f) => Failure(f)
  }

  /** The same loop when it builds the text directly, line by line. */
  method AppendLines(header: string, s: seq<(string, Entry)>, out: Out) returns (r: Result<string, Fault>)
    ensures r == Listed(header, Collect(s, out))
  {
    var text := header;
    ghost var lines: seq<string> := [];
    var i := 0;
    while i < |s|
      invariant 0 <= i <= |s|
      invariant Collect(s[..i], out) == Success(lines)
      invariant text == header + Unlines(lines)
    {
      assert s[..i + 1][..i] == s[..i];
      var o := out(s[i]);
      if o.Failure? {
        CollectFailureSticks(s, i + 1, out);
        return Failure(o.error);
      }
      if o.value.Some? {
        var line := o.value.value;
        UnlinesSnoc(lines, line);
        assert header + Unlines(lines + [line]) == text + line + "\n";
        lines := lines + [line];
        text := text + line + "\n";
      }
      i := i + 1;
    }
    assert s[..i] == s;
    return Success(text);
  }

  /**
   * The entry contribution shared by the keyword searches: an entry whose
   * keywords (its own lower-cased name, then the section's generic words)
   * meet the query yields `line`; `.get` on a non-object raises.
   */
  function KeywordOut(section: string, queryLower: string, generic: seq<string>, line: (string, Record) -> string): (r: Out)
    ensures forall e: (string, Entry) :: !AnyIn(queryLower, [Lower(e.0)] + generic) ==> r(e) == Success(None)
    ensures forall e: (string, Entry) :: AnyIn(queryLower, [Lower(e.0)] + generic) && e.1.Object? ==>
      r(e) == Success(Some(line(e.0, e.1.record)))
    ensures forall e: (string, Entry) :: AnyIn(queryLower, [Lower(e.0)] + generic) && e.1.NotObject? ==>
      r(e) == Failure(NotAnObject(section, e.0))
  {
    (e: (string, Entry)) => if AnyIn(queryLower, [Lower(e.0)] + generic) then
        match e.1
        case NotObject => Failure(NotAnObject(section, e.0))
        case Object(rec) => Success(Some(line(e.0, rec)))
      else Success(None)
  }

  /** Every entry of the section is an object, so no `.get` on it raises. */
  predicate AllObjects(s: seq<(string, Entry)>) {
    forall i | 0 <= i < |s| :: s[i].1.Object?
  }

  /** One line per entry of a section of objects, in order. */
  function EveryBlock(s: seq<(string, Entry)>, line: (string, Record) -> string): (r: seq<string>)
    requires AllObjects(s)
    ensures |r| == |s| && forall i | 0 <= i < |s| :: r[i] == line(s[i].0, s[i].1.record)
  {
    seq(|s|, i requires 0 <= i < |s| => line(s[i].0, s[i].1.record))
  }

  /** A scan over a section of objects never raises. */
  lemma ObjectsNeverRaise(s: seq<(string, Entry)>, section: string, ql: string, generic: seq<string>, line: (string, Record) -> string)
    requires AllObjects(s)
    ensures Collect(s, KeywordOut(section, ql, generic, line)).Success?
  {
  }

  /** No entry of `s` has keywords that meet the query. */
  predicate NoKeywordMet(s: seq<(string, Entry)>, ql: string, generic: seq<string>) {
    forall i | 0 <= i < |s| :: !AnyIn(ql, [Lower(s[i].0)] + generic)
  }

  lemma NoKeywordMetMeansNoLines(s: seq<(string, Entry)>, section: string, ql: string, generic: seq<string>, line: (string, Record) -> string)
    ensures Collect(s, KeywordOut(section, ql, generic, line)) == Success([]) <==> NoKeywordMet(s, ql, generic)
  {
  }

  /** The contribution of a listing loop that reads every entry. */
  function EveryOut(section: string, line: (string, Record) -> string): Out {
    (e: (string, Entry)) => match e.1
      case NotObject => Failure(NotAnObject(section, e.0))
      case Object(rec) => Success(Some(line(e.0, rec)))
  }

  /**
   * A generic keyword the query contains makes every entry of the section
   * match: over a section of objects the search yields one line per entry.
   */
  lemma GenericKeywordMatchesAll(s: seq<(string, Entry)>, section: string, queryLower: string, generic: seq<string>, line: (string, Record) -> string, g: nat)
    requires g < |generic| && Contains(queryLower, generic[g])
    requires forall i | 0 <= i < |s| :: s[i].1.Object?
    ensures Collect(s, KeywordOut(section, queryLower, generic, line)).Success?
    ensures Collect(s, KeywordOut(section, queryLower, generic, line)).value
      == seq(|s|, i requires 0 <= i < |s| => line(s[i].0, s[i].1.record))
  {
    var out := KeywordOut(section, queryLower, generic, line);
    forall i | 0 <= i < |s| ensures out(s[i]) == Success(Some(line(s[i].0, s[i].1.record))) {
      var kws := [Lower(s[i].0)] + generic;
      assert kws[g + 1] == generic[g];
    }
    CollectEvery(s, out);
  }

  /** A listing over a section of objects yields exactly one line per entry, in order. */
  lemma ListingHasEveryEntry(s: seq<(string, Entry)>, section: string, line: (string, Record) -> string)
    requires forall i | 0 <= i < |s| :: s[i].1.Object?
    ensures Collect(s, EveryOut(section, line)).Success?
    ensures Collect(s, EveryOut(section, line)).value
      == seq(|s|, i requires 0 <= i < |s| => line(s[i].0, s[i].1.record))
  {
    CollectEvery(s, EveryOut(section, line));
  }

  /** A listing raises exactly when some entry is not an object, at the first such entry. */
  lemma ListingFailsOnFirstNonObject(s: seq<(string, Entry)>, section: string, line: (string, Record) -> string)
    ensures Collect(s, EveryOut(section, line)).Failure? <==> exists i | 0 <= i < |s| :: s[i].1.NotObject?
    ensures Collect(s, EveryOut(section, line)).Failure? ==>
      exists i | 0 <= i < |s| :: s[i].1.NotObject? && Collect(s, EveryOut(section, line)).error == NotAnObject(section, s[i].0)
        && forall j | 0 <= j < i :: s[j].1.Object?
  {
  }

  // ---------------------------------------------------------------------
  // The `get_available_*` tools that catch their exceptions.

  /**
   * A listing tool: the fixed message for an empty section, else the header
   * followed by one line per entry, or `context: <exception>`.
   */
  function Availability(s: seq<(string, Entry)>, emptyMessage: string, header: string, context: string, out: Out): ToolOutput {
    if s == [] then Text(emptyMessage)
    else match Listed(header, Collect(s, out))
      case Success(t) => Text(t)
      case Failure(f) => ErrorText(context, f)
  }

  method ListAvailable(s: seq<(string, Entry)>, emptyMessage: string, header: string, context: string, out: Out)
    returns (r: ToolOutput)
    ensures r == Availability(s, emptyMessage, header, context, out)
  {
    if s == [] {
      return Text(emptyMessage);
    }
    var t := AppendLines(header, s, out);
    if t.Failure? {
      return ErrorText(context, t.error);
    }
    return Text(t.value);
  }

  /** Over a non-empty section of objects, the listing is the header and one line per entry, in order. */
  lemma AvailabilityListsEveryEntry(s: seq<(string, Entry)>, emptyMessage: string, header: string, context: string,
                                    section: string, line: (string, Record) -> string)
    requires s != [] && forall i | 0 <= i < |s| :: s[i].1.Object?
    ensures Availability(s, emptyMessage, header, context, EveryOut(section, line))
      == Text(header + Unlines(seq(|s|, i requires 0 <= i < |s| => line(s[i].0, s[i].1.record))))
  {
    ListingHasEveryEntry(s, section, line);
  }

  /** The listing reports an error exactly when the section holds an entry that is not an object. */
  lemma AvailabilityErrsOnNonObject(s: seq<(string, Entry)>, emptyMessage: string, header: string, context: string,
                                    section: string, line: (string, Record) -> string)
    ensures Availability(s, emptyMessage, header, context, EveryOut(section, line)).ErrorText?
      <==> exists i | 0 <= i < |s| :: s[i].1.NotObject?
  {
  }

  /** Sequencing two scans: the first exception wins, else the lines of both, in order. */
  function AndThen(first: Result<seq<string>, Fault>, second: Result<seq<string>, Fault>): Result<seq<string>, Fault> {
    match first
    case Failure(f) => Failure(f)
    case Success(a) =>
      match second
      case Failure(f) => Failure(f)
      case Success(b) => Success(a + b)
  }

  /** The sequenced scans yield nothing exactly when each yields nothing. */
  lemma AndThenEmpty(a: Result<seq<string>, Fault>, b: Result<seq<string>, Fault>)
    ensures AndThen(a, b) == Success([]) <==> a == Success([]) && b == Success([])
  {
    if a.Success? && b.Success? && a.value + b.value == [] {
      assert |a.value + b.value| == |a.value| + |b.value|;
    }
  }

  /** One more scan after earlier ones: skipped when an earlier scan raised. */
  method ScanAfter(prev: Result<seq<string>, Fault>, s: seq<(string, Entry)>, out: Out) returns (r: Result<seq<string>, Fault>)
    ensures r == AndThen(prev, Collect(s, out))
  {
    if prev.Failure? {
      return prev;
    }
    var next := CollectLines(s, out);
    if next.Failure? {
      return next;
    }
    return Success(prev.value + next.value);
  }

  // ---------------------------------------------------------------------
  // Lookup by name.

  /** `section.get(name, {})`. */
  function Lookup(s: Section, name: string): (e: Entry)
    ensures forall i | 0 <= i < |s| && s[i].0 == name :: e == s[i].1
    ensures (forall i | 0 <= i < |s| :: s[i].0 != name) ==> e == Object(EmptyRecord)
  {
    if s == [] then Object(EmptyRecord)
    else if s[0].0 == name then s[0].1
    else Lookup(s[1..], name)
  }
}
