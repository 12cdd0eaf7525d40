/**
 * The seed generator's helpers (seedData/utils.ts): picking at random,
 * shuffling, slugs, e-mail addresses, salary ranges and dates. Randomness is
 * injected: a draw of `Math.random()` is a `Unit`, and the class `Entropy`
 * hands out the process's draws, fresh ids and faker values in order.
 */
module SeedUtils {
  import opened Text
  import opened Lists
  import opened Entities

  /** A draw of `Math.random()` or of faker's generator: a real in [0, 1). */
  type Unit = r: real | 0.0 <= r < 1.0

  function Min(a: int, b: int): int { if a <= b then a else b }

  lemma ScaleBounds(r: Unit, n: nat)
    requires n > 0
    ensures 0.0 <= r * (n as real) < n as real
  {
    assert (1.0 - r) * (n as real) > 0.0;
  }

  /** `Math.floor(r * n)`: an index below `n`. */
  function Scale(r: Unit, n: nat): (k: nat)
    requires n > 0
    ensures k < n
  {
    ScaleBounds(r, n);
    (r * (n as real)).Floor
  }

  /** `randomPick`: `array[Math.floor(r * array.length)]`, always an element of the array. */
  function RandomPick<T>(a: seq<T>, r: Unit): (x: T)
    requires |a| > 0
    ensures x in a
  {
    a[Scale(r, |a|)]
  }

  /**
   * One insertion step of `sort(() => 0.5 - Math.random())`: `x` moves past
   * the next element while the comparator, drawing `draws(k)`, is positive.
   * Returns the new sequence and the index of the next unused draw.
   */
  function RandomInsert<T(==)>(x: T, s: seq<T>, draws: nat -> Unit, k: nat): (r: (seq<T>, nat))
    ensures multiset(r.0) == multiset(s) + multiset{x}
    ensures |r.0| == |s| + 1
    ensures k <= r.1
  {
    if s == [] then ([x], k)
    else if 0.5 - draws(k) > 0.0 then
      var rest := RandomInsert(x, s[1..], draws, k + 1);
      assert s == [s[0]] + s[1..];
      ([s[0]] + rest.0, rest.1)
    else
      ([x] + s, k + 1)
  }

  /** `[...array].sort(() => 0.5 - Math.random())` as an insertion sort driven by the draws. */
  function RandomShuffle<T(==)>(s: seq<T>, draws: nat -> Unit, k: nat): (r: (seq<T>, nat))
    ensures multiset(r.0) == multiset(s)
    ensures |r.0| == |s|
    ensures k <= r.1
  {
    if s == [] then ([], k)
    else
      var sorted := RandomShuffle(s[1..], draws, k);
      assert s == [s[0]] + s[1..];
      RandomInsert(s[0], sorted.0, draws, sorted.1)
  }

  /**
   * `randomPickMultiple(array, count)`: the first `count` elements of the shuffled
   * copy. Returns the picks and the index of the next unused draw.
   */
  function RandomPickMultiple<T(==)>(a: seq<T>, count: nat, draws: nat -> Unit, k: nat): (r: (seq<T>, nat))
    ensures |r.0| == Min(count, |a|)
    ensures multiset(r.0) <= multiset(a)
    ensures k <= r.1
  {
    var shuffled := RandomShuffle(a, draws, k);
    PrefixMultiset(shuffled.0, Min(count, |a|));
    (shuffled.0[..Min(count, |a|)], shuffled.1)
  }

  /** Picks from a duplicate-free array never repeat. */
  lemma PickMultipleDistinct<T>(a: seq<T>, count: nat, draws: nat -> Unit, k: nat)
    requires NoDuplicates(a)
    ensures NoDuplicates(RandomPickMultiple(a, count, draws, k).0)
  {
    SubMultisetNoDuplicates(RandomPickMultiple(a, count, draws, k).0, a);
  }

  /** `generateSlug`: lower-case, whitespace runs to hyphens, then only [a-z0-9-] kept. */
  function GenerateSlug(title: string): (r: string)
    ensures AllSlugChars(r)
  {
    KeepSlugCharsSound(Hyphenate(title));
    KeepSlugChars(Hyphenate(title))
  }

  lemma SlugCharsAreCanonical(s: string)
    requires AllSlugChars(s)
    ensures NoUpper(s) && NoSpace(s)
  {
  }

  /** Slugging a slug changes nothing. */
  lemma GenerateSlugIdempotent(title: string)
    ensures GenerateSlug(GenerateSlug(title)) == GenerateSlug(title)
  {
    var s := GenerateSlug(title);
    SlugCharsAreCanonical(s);
    LowerOfNoUpper(s);
    CollapseOfNoSpace(s);
    KeepSlugCharsOfSlug(s);
  }

  const EMAIL_DOMAINS: seq<string> := [
    "gmail.com", "yahoo.com", "outlook.com", "hotmail.com", "company.com",
    "techcorp.com", "startup.io", "dev.com", "engineer.net", "professional.org"
  ]

  /** `generateEmail`: `first.last@domain` in lower case, the domain picked by `r`. */
  function GenerateEmail(firstName: string, lastName: string, r: Unit): (email: string)
    ensures exists d :: d in EMAIL_DOMAINS && email == Lower(firstName) + "." + Lower(lastName) + "@" + d
  {
    var domain := RandomPick(EMAIL_DOMAINS, r);
    Lower(firstName) + "." + Lower(lastName) + "@" + domain
  }

  /** `faker.number.int({ min: lo, max: hi })` driven by one faker draw. */
  function FakerInt(lo: int, hi: int, u: Unit): (x: int)
    requires lo <= hi
    ensures lo <= x <= hi
  {
    lo + Scale(u, hi - lo + 1)
  }

  /** `randomDate(start, end)`: some instant in [start, end]. */
  function RandomDate(start: Timestamp, end: Timestamp, u: Unit): (d: Timestamp)
    requires start <= end
    ensures start <= d <= end
  {
    FakerInt(start, end, u)
  }

  predicate SalaryInRange(s: Salary) {
    && 50000 <= s.min <= 150000
    && s.min + 10000 <= s.max <= s.min + 100000
    && s.currency == "USD"
  }

  /** `generateSalaryRange`: a minimum in [50000, 150000], then a maximum 10000 to 100000 above it. */
  function GenerateSalaryRange(u1: Unit, u2: Unit): (s: Salary)
    ensures SalaryInRange(s)
  {
    var min := FakerInt(50000, 150000, u1);
    var max := FakerInt(min + 10000, min + 100000, u2);
    Salary(min, max, "USD")
  }

  /** The uuid draws behind a list of ids: strictly increasing stream positions in `[lo, hi)`. */
  ghost predicate DrawnBetween(positions: seq<nat>, lo: nat, hi: nat) {
    && (forall a, b :: 0 <= a < b < |positions| ==> positions[a] < positions[b])
    && (forall k :: 0 <= k < |positions| ==> lo <= positions[k] < hi)
  }

  lemma DrawnAppend(p: seq<nat>, q: seq<nat>, lo: nat, mid: nat, hi: nat)
    requires lo <= mid <= hi && DrawnBetween(p, lo, mid) && DrawnBetween(q, mid, hi)
    ensures DrawnBetween(p + q, lo, hi)
  {
    forall a, b | 0 <= a < b < |p + q| ensures (p + q)[a] < (p + q)[b] {
      if b < |p| {
        assert (p + q)[a] == p[a] && (p + q)[b] == p[b];
      } else if a < |p| {
        assert (p + q)[a] == p[a] < mid <= q[b - |p|] == (p + q)[b];
      } else {
        assert (p + q)[a] == q[a - |p|] && (p + q)[b] == q[b - |p|];
      }
    }
  }

  /**
   * The process's sources of nondeterminism, replayed from fixed streams:
   * `Math.random()`, `crypto.randomUUID()` (never repeating), faker's numeric
   * generator, and faker's names and sentences. Each cursor is the index of
   * the next value to hand out.
   */
  class Entropy {
    const random: nat -> Unit
    const uuids: nat -> string
    const faker: nat -> Unit
    const words: nat -> string
    var nextRandom: nat
    var nextUuid: nat
    var nextFaker: nat
    var nextWord: nat

    /** No id is handed out twice. */
    ghost predicate Valid() {
      forall a: nat, b: nat :: a != b ==> uuids(a) != uuids(b)
    }

    constructor (random: nat -> Unit, uuids: nat -> string, faker: nat -> Unit, words: nat -> string)
      requires forall a: nat, b: nat :: a != b ==> uuids(a) != uuids(b)
      ensures Valid()
      ensures this.random == random && this.uuids == uuids && this.faker == faker && this.words == words
      ensures nextRandom == 0 && nextUuid == 0 && nextFaker == 0 && nextWord == 0
    {
      this.random, this.uuids, this.faker, this.words := random, uuids, faker, words;
      nextRandom, nextUuid, nextFaker, nextWord := 0, 0, 0, 0;
    }

    /** `Math.random()`. */
    method Random() returns (r: Unit)
      modifies this`nextRandom
      ensures r == random(old(nextRandom)) && nextRandom == old(nextRandom) + 1
    {
      r := random(nextRandom);
      nextRandom := nextRandom + 1;
    }

    /** `Math.floor(Math.random() * n)`. */
    method Below(n: nat) returns (k: nat)
      requires n > 0
      modifies this`nextRandom
      ensures k < n && k == Scale(random(old(nextRandom)), n) && nextRandom == old(nextRandom) + 1
    {
      var r := Random();
      k := Scale(r, n);
    }

    /** `randomPick(a)`. */
    method Pick<T>(a: seq<T>) returns (x: T)
      requires |a| > 0
      modifies this`nextRandom
      ensures x in a && x == RandomPick(a, random(old(nextRandom))) && nextRandom == old(nextRandom) + 1
    {
      var r := Random();
      x := RandomPick(a, r);
    }

    /** `randomPickMultiple(a, count)`. */
    method PickMultiple<T(==)>(a: seq<T>, count: nat) returns (picks: seq<T>)
      modifies this`nextRandom
      ensures |picks| == Min(count, |a|) && multiset(picks) <= multiset(a)
      ensures (picks, nextRandom) == RandomPickMultiple(a, count, random, old(nextRandom))
    {
      var r := RandomPickMultiple(a, count, random, nextRandom);
      picks, nextRandom := r.0, r.1;
    }

    /** `generateId()`, i.e. `crypto.randomUUID()`. */
    method GenerateId() returns (id: string)
      modifies this`nextUuid
      ensures id == uuids(old(nextUuid)) && nextUuid == old(nextUuid) + 1
    {
      id := uuids(nextUuid);
      nextUuid := nextUuid + 1;
    }

    /** `randomDate(start, end)`. */
    method Date(start: Timestamp, end: Timestamp) returns (d: Timestamp)
      requires start <= end
      modifies this`nextFaker
      ensures start <= d <= end && d == RandomDate(start, end, faker(old(nextFaker)))
      ensures nextFaker == old(nextFaker) + 1
    {
      d := RandomDate(start, end, faker(nextFaker));
      nextFaker := nextFaker + 1;
    }

    /** `generateSalaryRange()`. */
    method SalaryRange() returns (s: Salary)
      modifies this`nextFaker
      ensures SalaryInRange(s) && s == GenerateSalaryRange(faker(old(nextFaker)), faker(old(nextFaker) + 1))
      ensures nextFaker == old(nextFaker) + 2
    {
      s := GenerateSalaryRange(faker(nextFaker), faker(nextFaker + 1));
      nextFaker := nextFaker + 2;
    }

    /** A faker name, word run, sentence, paragraph or phone number. */
    method Word() returns (w: string)
      modifies this`nextWord
      ensures w == words(old(nextWord)) && nextWord == old(nextWord) + 1
    {
      w := words(nextWord);
      nextWord := nextWord + 1;
    }
  }

  /** Uuids drawn at distinct stream positions are distinct. */
  lemma DrawnDistinct(src: Entropy, positions: seq<nat>, lo: nat, hi: nat)
    requires src.Valid() && DrawnBetween(positions, lo, hi)
    ensures forall a, b :: 0 <= a < b < |positions| ==> src.uuids(positions[a]) != src.uuids(positions[b])
  {
  }
}
