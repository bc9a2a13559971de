/** The endless product feed of the home page: products are generated by
    cycling through three templates, six at a time, and shown in two columns
    (even positions left, odd positions right). */
module ProductFeed {
  import opened Strings

  const BATCH: nat := 6

  /** One of the three product templates (the floating-point rating is not
      modelled). */
  datatype Template = Template(id: nat, title: string, categoryIcon: string, price: int, sales: nat, tags: seq<string>)

  /** `{ ...template, id }` */
  datatype FeedProduct = FeedProduct(id: string, title: string, categoryIcon: string, price: int, sales: nat, tags: seq<string>)

  const TEMPLATES: seq<Template> := [
    Template(1, "iPhone 15 Pro Max", "📱", 9999, 1000, ["热销", "新品"]),
    Template(2, "MacBook Pro M3", "💻", 12999, 500, ["官方直营"]),
    Template(3, "AirPods Pro 2", "🎧", 1899, 2000, ["无线充电", "降噪"])
  ]

  /** `${template.id}-${position + 1}` */
  function FeedId(templateId: nat, position: nat): string {
    Decimal(templateId) + "-" + Decimal(position + 1)
  }

  /** The product at `position` of the feed: template `position % 3` with
      every field copied except the id. */
  function FeedItem(position: nat): (p: FeedProduct)
    ensures var t := TEMPLATES[position % 3];
      && p.id == FeedId(t.id, position)
      && p.title == t.title && p.categoryIcon == t.categoryIcon && p.price == t.price
      && p.sales == t.sales && p.tags == t.tags
  {
    var t := TEMPLATES[position % 3];
    FeedProduct(FeedId(t.id, position), t.title, t.categoryIcon, t.price, t.sales, t.tags)
  }

  /** `generateProducts(startIndex, count)` */
  method GenerateProducts(startIndex: nat, count: nat) returns (batch: seq<FeedProduct>)
    ensures |batch| == count
    ensures forall i :: 0 <= i < count ==> batch[i] == FeedItem(startIndex + i)
  {
    batch := [];
    var i := 0;
    while i < count
      invariant 0 <= i <= count && |batch| == i
      invariant forall j :: 0 <= j < i ==> batch[j] == FeedItem(startIndex + j)
    {
      var t := TEMPLATES[(startIndex + i) % 3];
      batch := batch + [FeedProduct(FeedId(t.id, startIndex + i), t.title, t.categoryIcon, t.price, t.sales, t.tags)];
      i := i + 1;
    }
  }

  /** The number after the dash tells the positions apart, whatever the
      templates. */
  lemma FeedIdInjective(a: nat, m: nat, b: nat, n: nat)
    requires m != n
    ensures FeedId(a, m) != FeedId(b, n)
  {
    DecimalHasNo(a, '-');
    DecimalHasNo(b, '-');
    DecimalHasNo(m + 1, '-');
    DecimalHasNo(n + 1, '-');
    SplitTwo(Decimal(a), Decimal(m + 1), '-');
    SplitTwo(Decimal(b), Decimal(n + 1), '-');
    DecimalInjective(m + 1, n + 1);
  }

  /** Distinct positions have distinct ids. */
  lemma FeedIdsDistinct(m: nat, n: nat)
    requires m != n
    ensures FeedItem(m).id != FeedItem(n).id
  {
    FeedIdInjective(TEMPLATES[m % 3].id, m, TEMPLATES[n % 3].id, n);
  }

  /** The product list with its loading flag. */
  class ProductList {
    var products: seq<FeedProduct>
    var loading: bool

    /** Every product sits at the position it was generated for. */
    ghost predicate Valid()
      reads this`products
    {
      forall k :: 0 <= k < |products| ==> products[k] == FeedItem(k)
    }

    constructor ()
      ensures Valid() && products == [] && !loading
    {
      products, loading := [], false;
    }

    /** `fetchMore`: ignored while a load is running; otherwise six more
        products, generated from the current length, are appended. The 800 ms
        pause is not modelled, only the state once it is over. */
    method FetchMore()
      requires Valid()
      modifies this`products, this`loading
      ensures Valid()
      ensures old(loading) ==> products == old(products) && loading
      ensures !old(loading) ==> |products| == |old(products)| + BATCH && products[..|old(products)|] == old(products) && !loading
    {
      if loading {
        return;
      }
      loading := true;
      var currentLength := |products|;
      var more := GenerateProducts(currentLength, BATCH);
      products := products + more;
      loading := false;
    }
  }

  /** In a well-formed list no two products share an id. */
  lemma ValidIdsUnique(products: seq<FeedProduct>)
    requires forall k :: 0 <= k < |products| ==> products[k] == FeedItem(k)
    ensures forall i, j :: 0 <= i < j < |products| ==> products[i].id != products[j].id
  {
    forall i, j | 0 <= i < j < |products| ensures products[i].id != products[j].id {
      FeedIdsDistinct(i, j);
    }
  }

  // ---------------------------------------------------------------------
  // The two columns.

  /** `products.filter((_, i) => i % 2 === 0)` */
  function LeftColumn<T>(s: seq<T>): (r: seq<T>)
    ensures |r| == (|s| + 1) / 2
    ensures s != [] ==> r[0] == s[0]
  {
    if s == [] then [] else [s[0]] + RightColumn(s[1..])
  }

  /** `products.filter((_, i) => i % 2 !== 0)` */
  function RightColumn<T>(s: seq<T>): (r: seq<T>)
    ensures |r| == |s| / 2
    ensures |s| >= 2 ==> r[0] == s[1]
  {
    if s == [] then [] else LeftColumn(s[1..])
  }

  /** The left column holds positions 0, 2, 4, ... and the right column
      positions 1, 3, 5, ..., each in order; the left one has the extra
      product when the count is odd. */
  lemma {:induction false} ColumnsByParity<T>(s: seq<T>)
    ensures |LeftColumn(s)| == (|s| + 1) / 2 && |RightColumn(s)| == |s| / 2
    ensures forall i :: 0 <= i < |LeftColumn(s)| ==> LeftColumn(s)[i] == s[2 * i]
    ensures forall i :: 0 <= i < |RightColumn(s)| ==> RightColumn(s)[i] == s[2 * i + 1]
  {
    if s != [] {
      ColumnsByParity(s[1..]);
      var l := LeftColumn(s);
      var r := RightColumn(s);
      assert l == [s[0]] + RightColumn(s[1..]);
      assert r == LeftColumn(s[1..]);
      forall i | 0 < i < |l| ensures l[i] == s[2 * i] {
        assert l[i] == RightColumn(s[1..])[i - 1] == s[1..][2 * (i - 1) + 1];
      }
      forall i | 0 <= i < |r| ensures r[i] == s[2 * i + 1] {
        assert r[i] == s[1..][2 * i];
      }
    }
  }

  /** The columns together hold exactly the products of the list. */
  lemma {:induction false} ColumnsPartition<T>(s: seq<T>)
    ensures multiset(LeftColumn(s)) + multiset(RightColumn(s)) == multiset(s)
  {
    if s != [] {
      ColumnsPartition(s[1..]);
      assert s == [s[0]] + s[1..];
    }
  }
}
