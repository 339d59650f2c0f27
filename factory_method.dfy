/** The factory method demonstration: each concrete creator overrides one factory method
    to choose a concrete product, and the creator's shared operation works with whatever
    product that method returns. Creators and products hold no state, so each concrete
    class is a datatype constructor and each virtual call a match on it. */
module FactoryMethod {
  import opened Wrappers
  import Decimal

  const OperationHead := "{Result of the ConcreteProduct"
  const OperationTail := "}"
  const SharedPrefix := "The same creator's code working with "
  const Greeting := "Connect with interface.\n"

  /** The text product n reports about itself */
  function OperationText(n: nat): string
    requires n < 10
  {
    OperationHead + [Decimal.DigitChar(n)] + OperationTail
  }

  datatype Product = ConcreteProduct1 | ConcreteProduct2 | ConcreteProduct3 {
    function Number(): nat {
      match this
      case ConcreteProduct1 => 1
      case ConcreteProduct2 => 2
      case ConcreteProduct3 => 3
    }

    /** Each concrete product's literal names it by number */
    function Operation(): (r: string)
      ensures r == OperationText(Number())
    {
      match this
      case ConcreteProduct1 => "{Result of the ConcreteProduct1}"
      case ConcreteProduct2 => "{Result of the ConcreteProduct2}"
      case ConcreteProduct3 => "{Result of the ConcreteProduct3}"
    }
  }

  /** The product whose operation produced the text, if any */
  function ProductOf(text: string): Option<Product> {
    if |text| == |OperationHead| + 2
       && text[..|OperationHead|] == OperationHead
       && text[|text| - 1..] == OperationTail
    then
      match text[|OperationHead|]
      case '1' => Some(ConcreteProduct1)
      case '2' => Some(ConcreteProduct2)
      case '3' => Some(ConcreteProduct3)
      case _ => None
    else None
  }

  lemma ProductOfOperation(p: Product)
    ensures ProductOf(p.Operation()) == Some(p)
  {
    var text := p.Operation();
    assert text == OperationHead + [Decimal.DigitChar(p.Number())] + OperationTail;
    assert text[..|OperationHead|] == OperationHead;
    assert text[|text| - 1..] == OperationTail;
    assert text[|OperationHead|] == Decimal.DigitChar(p.Number());
  }

  lemma OperationOfProduct(text: string)
    ensures ProductOf(text).Some? ==> ProductOf(text).value.Operation() == text
  {
    if ProductOf(text).Some? {
      var p := ProductOf(text).value;
      var digit := [text[|OperationHead|]];
      assert text == text[..|OperationHead|] + digit + text[|text| - 1..];
      assert digit == [Decimal.DigitChar(p.Number())];
    }
  }

  /** Different products report different texts */
  lemma OperationInjective(p: Product, q: Product)
    ensures p.Operation() == q.Operation() <==> p == q
  {
    ProductOfOperation(p);
    ProductOfOperation(q);
  }

  datatype Creator = ConcreteCreator1 | ConcreteCreator2 | ConcreteCreator3 {
    function Number(): nat {
      match this
      case ConcreteCreator1 => 1
      case ConcreteCreator2 => 2
      case ConcreteCreator3 => 3
    }

    /** Creator n makes product n */
    function FactoryMethod(): (p: Product)
      ensures p.Number() == Number()
    {
      match this
      case ConcreteCreator1 => ConcreteProduct1
      case ConcreteCreator2 => ConcreteProduct2
      case ConcreteCreator3 => ConcreteProduct3
    }

    /** The operation all creators share: it announces the product its own factory
        method made, which can be read back from the text */
    function SomeOperation(): (r: string)
      ensures |SharedPrefix| <= |r| && r[..|SharedPrefix|] == SharedPrefix
      ensures ProductOf(r[|SharedPrefix|..]) == Some(FactoryMethod())
    {
      var product := FactoryMethod();
      var result := "The same creator's code working with " + product.Operation();
      assert result[|SharedPrefix|..] == product.Operation();
      ProductOfOperation(product);
      result
    }
  }

  /** Creators are told apart by their shared operation alone */
  lemma SomeOperationDistinct(c: Creator, d: Creator)
    ensures c.SomeOperation() == d.SomeOperation() <==> c == d
  {
    if c.SomeOperation() == d.SomeOperation() {
      assert c.FactoryMethod() == d.FactoryMethod();
    }
  }

  /** The client's output for one creator: the greeting line, then the shared
      operation's text on a line of its own */
  function ClientCode(creator: Creator): (out: string)
    ensures |Greeting| + |SharedPrefix| <= |out| && out[..|Greeting|] == Greeting
    ensures out[|out| - 1] == '\n'
    ensures out[|Greeting|..|out| - 1] == creator.SomeOperation()
  {
    var out := "Connect with interface.\n" + creator.SomeOperation() + "\n";
    assert out[|Greeting|..|out| - 1] == creator.SomeOperation();
    out
  }

  /** What the client prints for each creator */
  lemma ClientCodeTexts()
    ensures ClientCode(ConcreteCreator1)
            == "Connect with interface.\n"
               + ("The same creator's code working with " + "{Result of the ConcreteProduct1}") + "\n"
    ensures ClientCode(ConcreteCreator2)
            == "Connect with interface.\n"
               + ("The same creator's code working with " + "{Result of the ConcreteProduct2}") + "\n"
    ensures ClientCode(ConcreteCreator3)
            == "Connect with interface.\n"
               + ("The same creator's code working with " + "{Result of the ConcreteProduct3}") + "\n"
  {
  }
}
