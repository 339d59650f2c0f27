/** The builder demonstration: a builder that appends labelled parts to the product it
    owns, a director that runs fixed recipes of part calls, and the product's listing. */
module Builder {

  const PartA1: string := "PartA1"
  const PartB1: string := "PartB1"
  const PartC1: string := "PartC1"
  const PartD1: string := "PartD1"

  /** The part calls each director recipe makes, in order */
  const MinimalRecipe: seq<string> := [PartA1]
  const FullRecipe: seq<string> := [PartA1, PartB1, PartC1, PartD1]
  const HalfRecipe: seq<string> := [PartA1, PartD1]

  const Header: string := "Product parts: "
  const Separator: string := ", "
  const Trailer: string := "\n\n"

  // ---------------------------------------------------------------------------
  // Rendering a list of parts
  // ---------------------------------------------------------------------------

  /** What the listing loop writes for one element: the separator is left out
      whenever the element equals the product's last element in value. */
  function Piece(part: string, last: string): string {
    if part == last then part else part + Separator
  }

  /** What the listing loop writes for the elements of s, each compared with last */
  function Pieces(s: seq<string>, last: string): string {
    if |s| == 0 then "" else Pieces(s[..|s| - 1], last) + Piece(s[|s| - 1], last)
  }

  /** The listing as the source writes it; the last element is only looked at
      when there is one. */
  function Rendered(parts: seq<string>): (r: string)
    ensures |r| >= |Header| + |Trailer|
    ensures r[..|Header|] == Header && r[|r| - |Trailer|..] == Trailer
  {
    Header + (if |parts| == 0 then "" else Pieces(parts, parts[|parts| - 1])) + Trailer
  }

  /** The parts joined with exactly one separator between neighbours */
  function Join(s: seq<string>): string {
    if |s| == 0 then ""
    else if |s| == 1 then s[0]
    else Join(s[..|s| - 1]) + Separator + s[|s| - 1]
  }

  /** The listing as evidently intended: a plain comma-separated join */
  function Listing(parts: seq<string>): string {
    Header + Join(parts) + Trailer
  }

  /** The last part does not occur earlier in the list */
  predicate LastUnique(parts: seq<string>) {
    forall i :: 0 <= i < |parts| - 1 ==> parts[i] != parts[|parts| - 1]
  }

  function TotalLength(s: seq<string>): nat {
    if |s| == 0 then 0 else TotalLength(s[..|s| - 1]) + |s[|s| - 1]|
  }

  lemma {:induction false} PiecesAppend(a: seq<string>, b: seq<string>, last: string)
    ensures Pieces(a + b, last) == Pieces(a, last) + Pieces(b, last)
  {
    if |b| == 0 {
      assert a + b == a;
    } else {
      var ab, init := a + b, b[..|b| - 1];
      assert ab[..|ab| - 1] == a + init;
      assert ab[|ab| - 1] == b[|b| - 1];
      var x, y, z := Pieces(a, last), Pieces(init, last), Piece(b[|b| - 1], last);
      calc {
        Pieces(ab, last);
        Pieces(a + init, last) + z;
        { PiecesAppend(a, init, last); }
        (x + y) + z;
        { assert (x + y) + z == x + (y + z); }
        x + (y + z);
      }
    }
  }

  /** An empty product lists as the header alone, with no separator */
  lemma RenderedEmpty()
    ensures Rendered([]) == "Product parts: \n\n"
  {
  }

  /** Wherever it occurs, an element is followed by the separator exactly when it
      differs in value from the last element. */
  lemma PiecesAt(s: seq<string>, k: nat, last: string)
    requires k < |s|
    ensures Pieces(s, last)
            == Pieces(s[..k], last) + s[k] + (if s[k] == last then "" else Separator)
               + Pieces(s[k + 1..], last)
  {
    var init, rest := s[..k], s[k + 1..];
    assert s == (init + [s[k]]) + rest;
    PiecesAppend(init + [s[k]], rest, last);
    PiecesSnoc(init, s[k], last);
    var x, z := Pieces(init, last), Pieces(rest, last);
    var sep := if s[k] == last then "" else Separator;
    assert Piece(s[k], last) == s[k] + sep by {
      if s[k] == last {
        assert s[k] + sep == s[k];
      }
    }
    calc {
      Pieces(s, last);
      (x + (s[k] + sep)) + z;
      { assert x + (s[k] + sep) == (x + s[k]) + sep; }
      ((x + s[k]) + sep) + z;
    }
  }

  lemma {:induction false} PiecesWithoutLast(s: seq<string>, last: string)
    requires s != []
    requires forall i :: 0 <= i < |s| ==> s[i] != last
    ensures Pieces(s, last) == Join(s) + Separator
  {
    if |s| == 1 {
      assert s[..0] == [];
    } else {
      PiecesWithoutLast(s[..|s| - 1], last);
    }
  }

  /** When the last label does not occur earlier, the source's listing is the plain join */
  lemma RenderedIsListingWhenLastUnique(parts: seq<string>)
    requires LastUnique(parts)
    ensures Rendered(parts) == Listing(parts)
  {
    if |parts| > 0 {
      var last := parts[|parts| - 1];
      var init := parts[..|parts| - 1];
      assert Pieces(parts, last) == Pieces(init, last) + last;
      if |init| == 0 {
        assert Join(parts) == last;
      } else {
        assert forall i :: 0 <= i < |init| ==> init[i] == parts[i];
        PiecesWithoutLast(init, last);
        assert Join(parts) == Join(init) + Separator + last;
      }
    }
  }

  lemma PiecesSnoc(s: seq<string>, x: string, last: string)
    ensures Pieces(s + [x], last) == Pieces(s, last) + Piece(x, last)
  {
    assert (s + [x])[..|s|] == s;
  }

  lemma Associate(a: string, b: string, c: string)
    ensures (a + b) + c == a + (b + c)
  {
  }

  /** What the listing loop has written once it has looked at the first i parts */
  function ListedSoFar(parts: seq<string>, i: nat): string
    requires i <= |parts|
  {
    Header + (if |parts| == 0 then "" else Pieces(parts[..i], parts[|parts| - 1]))
  }

  /** One turn of the listing loop extends the text by the next element's piece */
  lemma ListingStep(parts: seq<string>, i: nat)
    requires i < |parts|
    ensures parts[i] == parts[|parts| - 1] ==> ListedSoFar(parts, i) + parts[i] == ListedSoFar(parts, i + 1)
    ensures parts[i] != parts[|parts| - 1]
            ==> ListedSoFar(parts, i) + parts[i] + Separator == ListedSoFar(parts, i + 1)
  {
    var last := parts[|parts| - 1];
    assert parts[..i + 1] == parts[..i] + [parts[i]];
    PiecesSnoc(parts[..i], parts[i], last);
    var p := Pieces(parts[..i], last);
    Associate(Header, p, Piece(parts[i], last));
    if parts[i] != last {
      Associate(Header + p, parts[i], Separator);
    }
  }

  /** Once every part has been looked at, the trailer completes the listing */
  lemma ListedAll(parts: seq<string>)
    ensures ListedSoFar(parts, |parts|) + Trailer == Rendered(parts)
  {
    assert parts[..|parts|] == parts;
  }

  lemma JoinSnoc(s: seq<string>, x: string)
    requires s != []
    ensures Join(s + [x]) == Join(s) + Separator + x
  {
    assert (s + [x])[..|s|] == s;
  }

  lemma PiecesOfRepeat()
    ensures Pieces([PartA1, PartD1, PartA1], PartA1) == "PartA1PartD1, PartA1"
  {
    LabelsDistinct();
    assert [] + [PartA1] == [PartA1] && [PartA1] + [PartD1] == [PartA1, PartD1];
    assert [PartA1, PartD1] + [PartA1] == [PartA1, PartD1, PartA1];
    PiecesSnoc([], PartA1, PartA1);
    PiecesSnoc([PartA1], PartD1, PartA1);
    PiecesSnoc([PartA1, PartD1], PartA1, PartA1);
    assert Pieces([PartA1, PartD1], PartA1) == "PartA1PartD1, ";
  }

  /** A repeated last label loses its separator: [A, D, A] lists as "PartA1PartD1, PartA1" ... */
  lemma RenderedDropsSeparatorBeforeRepeat()
    ensures Rendered([PartA1, PartD1, PartA1]) == "Product parts: PartA1PartD1, PartA1\n\n"
  {
    PiecesOfRepeat();
  }

  lemma JoinOfRepeat()
    ensures Join([PartA1, PartD1, PartA1]) == "PartA1, PartD1, PartA1"
  {
    JoinOfThree(PartA1, PartD1, PartA1);
  }

  /** ... where the intended join gives "PartA1, PartD1, PartA1" */
  lemma ListingKeepsSeparatorBeforeRepeat()
    ensures Listing([PartA1, PartD1, PartA1]) == "Product parts: PartA1, PartD1, PartA1\n\n"
  {
    JoinOfRepeat();
  }

  /** The intended listing has exactly one separator between neighbours, so its length
      is the parts' total length plus two characters per gap. */
  lemma {:induction false} JoinLength(s: seq<string>)
    requires s != []
    ensures |Join(s)| == TotalLength(s) + |Separator| * (|s| - 1)
  {
    if |s| == 1 {
      assert s[..0] == [];
    } else {
      JoinLength(s[..|s| - 1]);
    }
  }

  /** Two equal parts (here [p, p]) make the source's listing shorter than the total
      length plus one separator per gap. */
  lemma RenderedMissesSeparatorOfRepeat(part: string)
    ensures |Rendered([part, part])| == |Header| + 2 * |part| + |Trailer|
    ensures |Listing([part, part])| == |Header| + 2 * |part| + |Separator| + |Trailer|
  {
    var s := [part, part];
    assert s[..1] == [part] && [part][..0] == [];
    assert Pieces([part], part) == part;
    assert Pieces(s, part) == part + part;
    assert Join(s) == part + Separator + part;
  }

  lemma LabelsDistinct()
    ensures PartA1 != PartB1 && PartA1 != PartC1 && PartA1 != PartD1
    ensures PartB1 != PartC1 && PartB1 != PartD1 && PartC1 != PartD1
  {
    assert PartA1[4] == 'A' && PartB1[4] == 'B' && PartC1[4] == 'C' && PartD1[4] == 'D';
  }

  lemma LastUniqueOfFour(w: string, x: string, y: string, z: string)
    requires w != z && x != z && y != z
    ensures LastUnique([z]) && LastUnique([x, z]) && LastUnique([x, y, z])
    ensures LastUnique([w, x, y, z])
  {
  }

  /** The five products of the documented session list as its header comment shows */
  lemma MinimalListing()
    ensures LastUnique(MinimalRecipe) && Listing(MinimalRecipe) == "Product parts: PartA1\n\n"
  {
  }

  lemma JoinOfFullRecipe()
    ensures Join(FullRecipe) == "PartA1, PartB1, PartC1, PartD1"
  {
    assert [PartA1] + [PartB1] == [PartA1, PartB1];
    assert [PartA1, PartB1] + [PartC1] == [PartA1, PartB1, PartC1];
    assert [PartA1, PartB1, PartC1] + [PartD1] == FullRecipe;
    JoinSnoc([PartA1], PartB1);
    assert Join([PartA1, PartB1]) == "PartA1, PartB1";
    JoinSnoc([PartA1, PartB1], PartC1);
    assert Join([PartA1, PartB1, PartC1]) == "PartA1, PartB1, PartC1";
    JoinSnoc([PartA1, PartB1, PartC1], PartD1);
  }

  lemma FullListing()
    ensures LastUnique(FullRecipe)
    ensures Listing(FullRecipe) == "Product parts: PartA1, PartB1, PartC1, PartD1\n\n"
  {
    LabelsDistinct();
    LastUniqueOfFour(PartA1, PartB1, PartC1, PartD1);
    JoinOfFullRecipe();
    FullText();
  }

  lemma FullText()
    ensures Header + "PartA1, PartB1, PartC1, PartD1" + Trailer
            == "Product parts: PartA1, PartB1, PartC1, PartD1\n\n"
  {
  }

  lemma HalfListing()
    ensures LastUnique(HalfRecipe) && Listing(HalfRecipe) == "Product parts: PartA1, PartD1\n\n"
  {
    LabelsDistinct();
    assert [PartA1] + [PartD1] == HalfRecipe;
    JoinSnoc([PartA1], PartD1);
    assert Join(HalfRecipe) == "PartA1, PartD1";
  }

  lemma JoinOfThree(x: string, y: string, z: string)
    ensures Join([x, y, z]) == x + Separator + y + Separator + z
  {
    assert [x] + [y] == [x, y] && [x, y] + [z] == [x, y, z];
    JoinSnoc([x], y);
    JoinSnoc([x, y], z);
  }

  lemma JoinOfFirstCustom()
    ensures Join([PartA1, PartC1, PartD1]) == "PartA1, PartC1, PartD1"
  {
    JoinOfThree(PartA1, PartC1, PartD1);
  }

  lemma FirstCustomListing()
    ensures LastUnique([PartA1, PartC1, PartD1])
    ensures Listing([PartA1, PartC1, PartD1]) == "Product parts: PartA1, PartC1, PartD1\n\n"
  {
    LabelsDistinct();
    LastUniqueOfFour(PartA1, PartA1, PartC1, PartD1);
    JoinOfFirstCustom();
  }

  lemma JoinOfSecondCustom()
    ensures Join([PartB1, PartC1, PartD1]) == "PartB1, PartC1, PartD1"
  {
    JoinOfThree(PartB1, PartC1, PartD1);
  }

  lemma SecondCustomListing()
    ensures LastUnique([PartB1, PartC1, PartD1])
    ensures Listing([PartB1, PartC1, PartD1]) == "Product parts: PartB1, PartC1, PartD1\n\n"
  {
    LabelsDistinct();
    LastUniqueOfFour(PartB1, PartB1, PartC1, PartD1);
    JoinOfSecondCustom();
  }

  // ---------------------------------------------------------------------------
  // Product1, ConcreteBuilder1, Director
  // ---------------------------------------------------------------------------

  class Product1 {
    var parts: seq<string>

    constructor ()
      ensures parts == []
    {
      parts := [];
    }

    /** Renders the parts; the trailing separator rule compares each element with the
        last one, as the source's index loop does. */
    method ListParts() returns (out: string)
      ensures out == Rendered(parts)
      ensures LastUnique(parts) ==> out == Listing(parts)
    {
      out := Header;
      var i := 0;
      while i < |parts|
        invariant 0 <= i <= |parts|
        invariant out == ListedSoFar(parts, i)
      {
        ListingStep(parts, i);
        if parts[i] == parts[|parts| - 1] {
          out := out + parts[i];
        } else {
          out := out + parts[i] + Separator;
        }
        i := i + 1;
      }
      ListedAll(parts);
      out := out + Trailer;
      if LastUnique(parts) {
        RenderedIsListingWhenLastUnique(parts);
      }
    }
  }

  class ConcreteBuilder1 {
    var product: Product1?

    ghost predicate Valid()
      reads this
    {
      product != null
    }

    /** A new builder starts with a fresh, empty product */
    constructor ()
      ensures Valid() && fresh(product) && product.parts == []
    {
      new;
      Reset();
    }

    method Reset()
      modifies this
      ensures Valid() && fresh(product) && product.parts == []
    {
      product := new Product1();
    }

    method ProducePartA()
      requires Valid()
      modifies product
      ensures product.parts == old(product.parts) + [PartA1]
    {
      product.parts := product.parts + [PartA1];
    }

    method ProducePartB()
      requires Valid()
      modifies product
      ensures product.parts == old(product.parts) + [PartB1]
    {
      product.parts := product.parts + [PartB1];
    }

    method ProducePartC()
      requires Valid()
      modifies product
      ensures product.parts == old(product.parts) + [PartC1]
    {
      product.parts := product.parts + [PartC1];
    }

    method ProducePartD()
      requires Valid()
      modifies product
      ensures product.parts == old(product.parts) + [PartD1]
    {
      product.parts := product.parts + [PartD1];
    }

    /** Hands out the product built so far and starts a fresh, empty one */
    method GetProduct() returns (result: Product1)
      requires Valid()
      modifies this
      ensures Valid() && fresh(product) && product.parts == []
      ensures result == old(product) && result.parts == old(product.parts)
    {
      result := product;
      Reset();
    }
  }

  /** Two extractions with nothing produced in between: the second product is empty,
      and a part produced afterwards reaches the builder's new product, not the first. */
  method GetProductTwice(builder: ConcreteBuilder1) returns (first: Product1, second: Product1)
    requires builder.Valid()
    modifies builder
    ensures first.parts == old(builder.product.parts) && second.parts == []
    ensures first != second && builder.Valid() && builder.product.parts == [PartA1]
  {
    first := builder.GetProduct();
    second := builder.GetProduct();
    builder.ProducePartA();
  }

  class Director {
    var builder: ConcreteBuilder1?

    constructor ()
      ensures builder == null
    {
      builder := null;
    }

    method SetBuilder(builder: ConcreteBuilder1)
      modifies this
      ensures this.builder == builder
    {
      this.builder := builder;
    }

    method BuildMinimalViableProduct()
      requires builder != null && builder.Valid()
      modifies builder.product
      ensures builder.product.parts == old(builder.product.parts) + MinimalRecipe
    {
      builder.ProducePartA();
    }

    method BuildFullFeaturedProduct()
      requires builder != null && builder.Valid()
      modifies builder.product
      ensures builder.product.parts == old(builder.product.parts) + FullRecipe
    {
      builder.ProducePartA();
      builder.ProducePartB();
      builder.ProducePartC();
      builder.ProducePartD();
    }

    method BuildHalfFeaturedProduct()
      requires builder != null && builder.Valid()
      modifies builder.product
      ensures builder.product.parts == old(builder.product.parts) + HalfRecipe
    {
      builder.ProducePartA();
      builder.ProducePartD();
    }
  }

  /** The second half of the documented session, where the builder is driven directly
      without the director: A, C, D and then B, C, D. */
  method CustomProducts(builder: ConcreteBuilder1) returns (out: seq<string>)
    requires builder.Valid() && builder.product.parts == []
    modifies builder, builder.product
    ensures builder.Valid() && fresh(builder.product) && builder.product.parts == []
    ensures out == [
      "Custom product 1:\n", "Product parts: PartA1, PartC1, PartD1\n\n",
      "Custom product 2:\n", "Product parts: PartB1, PartC1, PartD1\n\n"]
  {
    LabelsDistinct();
    builder.ProducePartA();
    builder.ProducePartC();
    builder.ProducePartD();
    var p := builder.GetProduct();
    assert p.parts == [PartA1, PartC1, PartD1];
    var custom1 := p.ListParts();

    builder.ProducePartB();
    builder.ProducePartC();
    builder.ProducePartD();
    p := builder.GetProduct();
    assert p.parts == [PartB1, PartC1, PartD1];
    var custom2 := p.ListParts();

    FirstCustomListing();
    SecondCustomListing();
    out := ["Custom product 1:\n", custom1, "Custom product 2:\n", custom2];
  }

  /** The documented session: three director recipes, then two products built directly.
      The listings are collected in the order the source writes them. */
  method ClientCode(director: Director) returns (out: seq<string>)
    modifies director
    ensures out == [
      "Standard basic product:\n", "Product parts: PartA1\n\n",
      "Standard full featured product:\n", "Product parts: PartA1, PartB1, PartC1, PartD1\n\n",
      "Standard half featured product:\n", "Product parts: PartA1, PartD1\n\n",
      "Custom product 1:\n", "Product parts: PartA1, PartC1, PartD1\n\n",
      "Custom product 2:\n", "Product parts: PartB1, PartC1, PartD1\n\n"]
  {
    var builder := new ConcreteBuilder1();
    director.SetBuilder(builder);

    director.BuildMinimalViableProduct();
    var p := builder.GetProduct();
    assert p.parts == MinimalRecipe;
    var basic := p.ListParts();
    MinimalListing();
    assert basic == "Product parts: PartA1\n\n";

    director.BuildFullFeaturedProduct();
    p := builder.GetProduct();
    assert p.parts == FullRecipe;
    var full := p.ListParts();
    FullListing();
    assert full == "Product parts: PartA1, PartB1, PartC1, PartD1\n\n";

    director.BuildHalfFeaturedProduct();
    p := builder.GetProduct();
    assert p.parts == HalfRecipe;
    var half := p.ListParts();
    HalfListing();
    assert half == "Product parts: PartA1, PartD1\n\n";

    var custom := CustomProducts(builder);

    out := ["Standard basic product:\n", basic, "Standard full featured product:\n", full,
            "Standard half featured product:\n", half, custom[0], custom[1], custom[2], custom[3]];
  }
}
