/** What the four collection routes under app/api share: one Redis key
    holding a list, seeded from the mock data when Redis is up but the list
    is absent or empty, query-string filters that apply only when given, and
    counting of stored document numbers with a prefix.

    Redis is reduced to the list stored under the key; whether Redis answers
    is a parameter at every point where the source asks. */
module RouteStore {
  import opened Types
  import opened Lists
  import opened Text
  import opened Numbering

  /** One Redis key's value: absent, or a stored list. */
  class RedisKey<T> {
    const key: string
    var stored: Option<seq<T>>

    constructor(key: string, stored: Option<seq<T>>)
      ensures this.key == key && this.stored == stored
    {
      this.key := key;
      this.stored := stored;
    }
  }

  /** The list `initialize*` returns and what the key holds afterwards. */
  datatype Initialized<T> = Initialized(list: seq<T>, stored: Option<seq<T>>)

  /** `initialize*`: the seed when Redis is down (the key untouched); when the
      stored list is absent or empty the seed is written and returned;
      otherwise the stored list. */
  function InitializeResult<T>(available: bool, stored: Option<seq<T>>, seed: seq<T>): (r: Initialized<T>)
    ensures !available ==> r.list == seed && r.stored == stored
    ensures available && (stored.None? || |stored.value| == 0) ==> r.list == seed && r.stored == Some(seed)
    ensures available && stored.Some? && |stored.value| > 0 ==> r.list == stored.value && r.stored == stored
  {
    if !available then Initialized(seed, stored)
    else if stored.None? || |stored.value| == 0 then Initialized(seed, Some(seed))
    else Initialized(stored.value, stored)
  }

  method Initialize<T>(redis: RedisKey<T>, available: bool, seed: seq<T>) returns (list: seq<T>)
    modifies redis
    ensures Initialized(list, redis.stored) == InitializeResult(available, old(redis.stored), seed)
  {
    if !available {
      list := seed;
    } else if redis.stored.None? || |redis.stored.value| == 0 {
      redis.stored := Some(seed);
      list := seed;
    } else {
      list := redis.stored.value;
    }
  }

  /** Initialising is the only place the seed enters: once Redis holds a
      list it is returned as it is, and a non-empty seed means the routes
      never serve an empty list from initialisation. */
  lemma InitializeStable<T>(available: bool, stored: Option<seq<T>>, seed: seq<T>)
    ensures var r := InitializeResult(available, stored, seed);
            (available ==> r.stored == Some(r.list))
            && (|seed| > 0 ==> |r.list| > 0)
            && (available ==> InitializeResult(available, r.stored, seed) == r)
  {
  }

  /** `if (param)`: a query parameter filters only when present and
      non-empty. */
  predicate Given(param: Option<string>) {
    param.Some? && param.value != ""
  }

  /** `if (param) list = list.filter(x => field(x) === param)`. */
  function FilterIf<T(==,!new)>(param: Option<string>, s: seq<T>, field: T -> string): (r: seq<T>)
    ensures forall x :: x in r <==> x in s && (Given(param) ==> field(x) == param.value)
    ensures forall x :: multiset(r)[x] == if !Given(param) || field(x) == param.value then multiset(s)[x] else 0
    ensures IsSubsequence(r, s)
    ensures !Given(param) ==> r == s
  {
    if Given(param) then
      var keep := (x: T) => field(x) == param.value;
      forall x ensures x in Filter(s, keep) <==> x in s && keep(x) {
        FilterMember(s, keep, x);
      }
      forall x ensures multiset(Filter(s, keep))[x] == if keep(x) then multiset(s)[x] else 0 {
        FilterMultiplicity(s, keep, x);
      }
      FilterIsSubsequence(s, keep);
      Filter(s, keep)
    else
      SubsequenceReflexive(s);
      s
  }

  lemma {:induction false} SubsequenceReflexive<T>(s: seq<T>)
    ensures IsSubsequence(s, s)
  {
    if s != [] {
      SubsequenceReflexive(s[1..]);
    }
  }

  /** `x => number(x).includes(prefix)`. */
  function HasPrefix<T>(number: T -> string, prefix: string): T -> bool {
    (x: T) => Contains(number(x), prefix)
  }

  /** `list.filter(x => number(x).includes(prefix)).length`. */
  function CountWithPrefix<T(==)>(s: seq<T>, number: T -> string, prefix: string): nat {
    Count(s, HasPrefix(number, prefix))
  }

  /** Appending a record whose number has the prefix counts one more. */
  lemma CountAppend<T>(s: seq<T>, x: T, number: T -> string, prefix: string)
    ensures CountWithPrefix(s + [x], number, prefix)
            == CountWithPrefix(s, number, prefix) + (if Contains(number(x), prefix) then 1 else 0)
  {
    FilterAppend(s, [x], HasPrefix(number, prefix));
  }

  /** The number a POST hands out: `{code}-{year}-` and one more than the
      stored numbers containing `{code}-{year}`. */
  function NextNumber<T(==)>(s: seq<T>, number: T -> string, code: string, year: int): string {
    DocumentNumber(code, year, CountWithPrefix(s, number, NumberPrefix(code, year)) + 1)
  }

  /** A list numbered only in other years (or with a code that the search
      text cannot match) contributes nothing: the next number is `-001`. */
  lemma FirstOfYear<T>(s: seq<T>, number: T -> string, code: string, year: int)
    requires forall k :: 0 <= k < |s| ==> !Contains(number(s[k]), NumberPrefix(code, year))
    ensures NextNumber(s, number, code, year) == DocumentNumber(code, year, 1)
  {
    FilterNone(s, HasPrefix(number, NumberPrefix(code, year)));
  }

  /** A number the route handed out counts towards its own year's next
      number, so successive POSTs in one year are numbered one after the
      other. */
  lemma NextAfterPost<T>(s: seq<T>, x: T, number: T -> string, code: string, year: int)
    requires number(x) == NextNumber(s, number, code, year)
    ensures NextNumber(s + [x], number, code, year)
            == DocumentNumber(code, year, CountWithPrefix(s, number, NumberPrefix(code, year)) + 2)
  {
    OwnPrefixFound(code, year, CountWithPrefix(s, number, NumberPrefix(code, year)) + 1);
    CountAppend(s, x, number, NumberPrefix(code, year));
  }

  /** A POST's effect on the key: the record is appended to the list the
      route read only when Redis answers at the write. */
  function Posted<T>(writeAvailable: bool, list: seq<T>, x: T, before: Option<seq<T>>): (r: Option<seq<T>>)
    ensures writeAvailable ==> r == Some(list + [x])
    ensures !writeAvailable ==> r == before
  {
    if writeAvailable then Some(list + [x]) else before
  }
}
