/** internal/domain/contracts: the identity and timestamps every entity
    embeds (`Entity` and its `Init`), and the page count of a search result
    (`SearchResult.LastPage`). */
module Contracts {
  import opened Wrappers
  import opened Chrono

  /** The four fields `Init` writes, as one value. */
  datatype EntityFields = EntityFields(id: string, createdAt: Instant, updatedAt: Instant, deletedAt: Option<Instant>)

  /** What `Init` stores, given the arguments, the one `time.Now()` reading
      `now` and the identifier `generatedId` that `uuid.New()` would give. */
  function InitFields(id: Option<string>, createdAt: Option<Instant>, updatedAt: Option<Instant>,
                      deletedAt: Option<Instant>, now: Instant, generatedId: string): EntityFields
  {
    EntityFields(
      if id.Some? && id.value != "" then id.value else generatedId,
      createdAt.GetOr(now),
      updatedAt.GetOr(now),
      deletedAt)
  }

  /** A given non-empty id is kept, and a missing or empty one is replaced
      by the generated one, never by "" (the generated id is not empty). */
  lemma InitId(id: Option<string>, createdAt: Option<Instant>, updatedAt: Option<Instant>,
               deletedAt: Option<Instant>, now: Instant, generatedId: string)
    ensures var f := InitFields(id, createdAt, updatedAt, deletedAt, now, generatedId);
      && (id.Some? && id.value != "" ==> f.id == id.value)
      && (id.None? || id.value == "" ==> f.id == generatedId)
      && (generatedId != "" ==> f.id != "")
  {
  }

  /** Both timestamps default to the same reading of the clock, so a new
      entity with neither given is created and updated at the same instant;
      the deletion time is copied as it is, absent included. */
  lemma InitTimestamps(id: Option<string>, createdAt: Option<Instant>, updatedAt: Option<Instant>,
                       deletedAt: Option<Instant>, now: Instant, generatedId: string)
    ensures var f := InitFields(id, createdAt, updatedAt, deletedAt, now, generatedId);
      && (createdAt.None? && updatedAt.None? ==> f.createdAt == f.updatedAt == now)
      && (createdAt.Some? ==> f.createdAt == createdAt.value)
      && (updatedAt.Some? ==> f.updatedAt == updatedAt.value)
      && f.deletedAt == deletedAt
  {
  }

  /** `contracts.Entity`, the part of an entity that `Init` fills in. */
  class Entity {
    var id: string
    var createdAt: Instant
    var updatedAt: Instant
    var deletedAt: Option<Instant>

    function Fields(): EntityFields
      reads this
    {
      EntityFields(id, createdAt, updatedAt, deletedAt)
    }

    /** The zero value `Entity{}`. */
    constructor ()
      ensures Fields() == EntityFields("", ZeroTime, ZeroTime, None)
    {
      id := "";
      createdAt := ZeroTime;
      updatedAt := ZeroTime;
      deletedAt := None;
    }

    /** `Init`: writes the four fields and nothing else. */
    method Init(id: Option<string>, createdAt: Option<Instant>, updatedAt: Option<Instant>,
                deletedAt: Option<Instant>, now: Instant, generatedId: string)
      modifies this
      ensures Fields() == InitFields(id, createdAt, updatedAt, deletedAt, now, generatedId)
    {
      if id.Some? && id.value != "" {
        this.id := id.value;
      } else {
        this.id := generatedId;
      }
      if createdAt.Some? {
        this.createdAt := createdAt.value;
      } else {
        this.createdAt := now;
      }
      if updatedAt.Some? {
        this.updatedAt := updatedAt.value;
      } else {
        this.updatedAt := now;
      }
      this.deletedAt := deletedAt;
    }
  }

  /** Go's integer division, which truncates toward zero. */
  function GoQuot(a: int, b: int): int
    requires b != 0
  {
    var q := (if a < 0 then -a else a) / (if b < 0 then -b else b);
    if (a < 0) != (b < 0) then -q else q
  }

  /** Go's `%`: the remainder of GoQuot, with the sign of the dividend. */
  function GoRem(a: int, b: int): int
    requires b != 0
  {
    a - b * GoQuot(a, b)
  }

  datatype SortDirection = Asc | Desc

  datatype SearchResult<E> = SearchResult(items: seq<E>, total: int, currentPage: int, perPage: int,
                                          sort: Option<string>, sortDir: Option<SortDirection>, filter: Option<string>)
  {
    /** `LastPage`: the number of pages of `perPage` items that hold `total`
        items, and 1 when there are no items or no page size. */
    function LastPage(): (p: int)
      ensures perPage == 0 || total == 0 ==> p == 1
      ensures total >= 0 && perPage >= 0 ==> p >= 1
      ensures total > 0 && perPage > 0 ==> (p - 1) * perPage < total <= p * perPage
    {
      if perPage == 0 then 1
      else
        var pages := GoQuot(total, perPage);
        var pages' := if GoRem(total, perPage) != 0 then pages + 1 else pages;
        var r := if pages' == 0 then 1 else pages';
        assert total > 0 && perPage > 0 ==> (r - 1) * perPage < total <= r * perPage by {
          if total > 0 && perPage > 0 {
            CeilBounds(total, perPage);
          }
        }
        r
    }
  }

  /** The quotient of two positive numbers, rounded up, brackets the dividend. */
  lemma CeilBounds(total: int, perPage: int)
    requires total > 0 && perPage > 0
    ensures var q, m := total / perPage, total % perPage;
      var c := if m != 0 then q + 1 else q;
      c >= 1 && (c - 1) * perPage < total <= c * perPage
  {
    var q, m := total / perPage, total % perPage;
    assert total == q * perPage + m && 0 <= m < perPage;
    if m != 0 {
      assert (q + 1) * perPage == q * perPage + perPage;
    } else {
      PositiveFactor(q, perPage);
      assert (q - 1) * perPage == q * perPage - perPage;
    }
  }

  /** For a non-negative total and a positive page size, LastPage is the
      ceiling of total / perPage, but at least 1. */
  lemma LastPageCeiling<E>(r: SearchResult<E>)
    requires r.total >= 0 && r.perPage > 0
    ensures var c := (r.total + r.perPage - 1) / r.perPage;
      r.LastPage() == if c == 0 then 1 else c
  {
    var c := (r.total + r.perPage - 1) / r.perPage;
    if r.total > 0 {
      var p, b := r.LastPage(), r.perPage;
      MulSucc(p - 1, b);
      MulSucc(p, b);
      DivBracket(r.total + b - 1, b, p);
    } else {
      assert c == (r.perPage - 1) / r.perPage == 0;
    }
  }

  lemma DivBracket(a: int, b: int, p: int)
    requires b > 0 && p * b <= a < (p + 1) * b
    ensures a / b == p
  {
    var q, m := a / b, a % b;
    assert a == q * b + m && 0 <= m < b;
    if q < p {
      MulMonotone(q + 1, p, b);
    } else if q > p {
      MulMonotone(p + 1, q, b);
    }
  }

  lemma MulSucc(p: int, b: int)
    ensures (p + 1) * b == p * b + b
  {
  }

  lemma MulMonotone(x: int, y: int, b: int)
    requires x <= y && b >= 0
    ensures x * b <= y * b
  {
    assert y * b - x * b == (y - x) * b;
  }

  lemma PositiveFactor(q: int, b: int)
    requires b > 0 && q * b > 0
    ensures q >= 1
  {
    if q <= 0 {
      MulMonotone(q, 0, b);
    }
  }
}
