/** The abstract factory demonstration: three factories, each producing one family of
    products A, B and C; products of one family collaborate by embedding each other's
    results in their own. The third family has no product C. Products hold no state,
    so each concrete product class is a datatype constructor and each virtual call a
    match on it. */
module AbstractFactory {
  import opened Wrappers

  const DescriptionHead := "The result of the product "
  const DescriptionTail := "."
  const CollaborationHead := "The result of the "
  const CollaborationMiddle := " collaborating with ( "
  const CollaborationTail := " )"

  /** What a product returns from its own useful function */
  function Description(tag: string): string {
    DescriptionHead + tag + DescriptionTail
  }

  /** The tag a description was made from, if the text is a description */
  function LabelOf(text: string): Option<string> {
    if |DescriptionHead| + |DescriptionTail| <= |text|
       && text[..|DescriptionHead|] == DescriptionHead
       && text[|text| - |DescriptionTail|..] == DescriptionTail
    then Some(text[|DescriptionHead|..|text| - |DescriptionTail|])
    else None
  }

  lemma LabelOfDescription(tag: string)
    ensures LabelOf(Description(tag)) == Some(tag)
  {
    var text := Description(tag);
    assert text[..|DescriptionHead|] == DescriptionHead;
    assert text[|text| - |DescriptionTail|..] == DescriptionTail;
    assert text[|DescriptionHead|..|text| - |DescriptionTail|] == tag;
  }

  lemma DescriptionOfLabel(text: string)
    ensures LabelOf(text).Some? ==> Description(LabelOf(text).value) == text
  {
    if LabelOf(text).Some? {
      var tag := LabelOf(text).value;
      assert text == text[..|DescriptionHead|] + tag + text[|text| - |DescriptionTail|..];
    }
  }

  /** Different labels give different descriptions */
  lemma DescriptionInjective(tag1: string, tag2: string)
    ensures Description(tag1) == Description(tag2) <==> tag1 == tag2
  {
    LabelOfDescription(tag1);
    LabelOfDescription(tag2);
  }

  /** What a product returns when it collaborates with another product's result */
  function Collaboration(tag: string, result: string): string {
    CollaborationHead + tag + CollaborationMiddle + result + CollaborationTail
  }

  /** The collaborator's result embedded in a collaboration line of the given product */
  function Collaborator(tag: string, text: string): Option<string> {
    var opening := CollaborationHead + tag + CollaborationMiddle;
    if |opening| + |CollaborationTail| <= |text|
       && text[..|opening|] == opening
       && text[|text| - |CollaborationTail|..] == CollaborationTail
    then Some(text[|opening|..|text| - |CollaborationTail|])
    else None
  }

  lemma CollaboratorOfCollaboration(tag: string, result: string)
    ensures Collaborator(tag, Collaboration(tag, result)) == Some(result)
  {
    var opening := CollaborationHead + tag + CollaborationMiddle;
    var text := Collaboration(tag, result);
    assert text == opening + result + CollaborationTail;
    assert text[..|opening|] == opening;
    assert text[|text| - |CollaborationTail|..] == CollaborationTail;
    assert text[|opening|..|text| - |CollaborationTail|] == result;
  }

  lemma CollaborationOfCollaborator(tag: string, text: string)
    ensures Collaborator(tag, text).Some? ==>
              Collaboration(tag, Collaborator(tag, text).value) == text
  {
    var opening := CollaborationHead + tag + CollaborationMiddle;
    if Collaborator(tag, text).Some? {
      var result := Collaborator(tag, text).value;
      assert text == text[..|opening|] + result + text[|text| - |CollaborationTail|..];
    }
  }

  datatype ProductA = A1 | A2 | A3 {
    function Family(): nat {
      match this
      case A1 => 1
      case A2 => 2
      case A3 => 3
    }

    function Label(): string {
      match this
      case A1 => "A1"
      case A2 => "A2"
      case A3 => "A3"
    }

    function UsefulFunctionA(): (r: string)
      ensures r == Description(Label())
    {
      match this
      case A1 => "The result of the product A1."
      case A2 => "The result of the product A2."
      case A3 => "The result of the product A3."
    }
  }

  datatype ProductB = B1 | B2 | B3 {
    function Family(): nat {
      match this
      case B1 => 1
      case B2 => 2
      case B3 => 3
    }

    function Label(): string {
      match this
      case B1 => "B1"
      case B2 => "B2"
      case B3 => "B3"
    }

    function UsefulFunctionB(): (r: string)
      ensures r == Description(Label())
    {
      match this
      case B1 => "The result of the product B1."
      case B2 => "The result of the product B2."
      case B3 => "The result of the product B3."
    }

    /** Embeds the collaborator's result in this product's collaboration line, from
        which it can be read back */
    function AnotherUsefulFunctionB(collaborator: ProductA): (r: string)
      ensures Collaborator(Label(), r) == Some(collaborator.UsefulFunctionA())
    {
      CollaboratorOfCollaboration(Label(), collaborator.UsefulFunctionA());
      Collaboration(Label(), collaborator.UsefulFunctionA())
    }
  }

  datatype ProductC = C1 | C2 {
    function Family(): nat {
      match this
      case C1 => 1
      case C2 => 2
    }

    function Label(): string {
      match this
      case C1 => "C1"
      case C2 => "C2"
    }

    function UsefulFunctionC(): (r: string)
      ensures r == Description(Label())
    {
      match this
      case C1 => "The result of the product C1."
      case C2 => "The result of the product C2."
    }

    /** Collaboration with a product A */
    function AnotherUsefulFunctionC(collaborator: ProductA): (r: string)
      ensures Collaborator(Label(), r) == Some(collaborator.UsefulFunctionA())
    {
      CollaboratorOfCollaboration(Label(), collaborator.UsefulFunctionA());
      Collaboration(Label(), collaborator.UsefulFunctionA())
    }

    /** Collaboration with a product B, in the same wording */
    function SecondAnotherUsefulFunctionC(collaborator: ProductB): (r: string)
      ensures Collaborator(Label(), r) == Some(collaborator.UsefulFunctionB())
    {
      CollaboratorOfCollaboration(Label(), collaborator.UsefulFunctionB());
      Collaboration(Label(), collaborator.UsefulFunctionB())
    }
  }

  /** Products of different families or kinds never describe themselves alike */
  lemma LabelsDistinct(a: ProductA, b: ProductB, c: ProductC, a': ProductA, b': ProductB, c': ProductC)
    ensures a.Label() == a'.Label() <==> a == a'
    ensures b.Label() == b'.Label() <==> b == b'
    ensures c.Label() == c'.Label() <==> c == c'
    ensures a.Label() != b.Label() && a.Label() != c.Label() && b.Label() != c.Label()
  {
  }

  /** The three concrete factories; a product C is absent (a null pointer) for the third */
  datatype Factory = ConcreteFactory1 | ConcreteFactory2 | ConcreteFactory3 {
    function Family(): nat {
      match this
      case ConcreteFactory1 => 1
      case ConcreteFactory2 => 2
      case ConcreteFactory3 => 3
    }

    function CreateProductA(): (a: ProductA)
      ensures a.Family() == Family()
    {
      match this
      case ConcreteFactory1 => A1
      case ConcreteFactory2 => A2
      case ConcreteFactory3 => A3
    }

    function CreateProductB(): (b: ProductB)
      ensures b.Family() == Family()
    {
      match this
      case ConcreteFactory1 => B1
      case ConcreteFactory2 => B2
      case ConcreteFactory3 => B3
    }

    function CreateProductC(): (c: Option<ProductC>)
      ensures c.Some? <==> Family() != 3
      ensures c.Some? ==> c.value.Family() == Family()
    {
      match this
      case ConcreteFactory1 => Some(C1)
      case ConcreteFactory2 => Some(C2)
      case ConcreteFactory3 => None
    }
  }

  /** Each factory makes one distinct family: its products determine the factory */
  lemma FactoryDeterminedByProducts(f: Factory, g: Factory)
    ensures f.CreateProductA() == g.CreateProductA() <==> f == g
    ensures f.CreateProductB() == g.CreateProductB() <==> f == g
  {
  }

  /** The client's five lines, as written: it uses product C whether or not the factory
      made one, so it is defined only for factories that do */
  function ClientCodeAsWritten(factory: Factory): (lines: seq<string>)
    requires factory.CreateProductC().Some?
    ensures |lines| == 5
  {
    var a := factory.CreateProductA();
    var b := factory.CreateProductB();
    var c := factory.CreateProductC().value;
    [b.UsefulFunctionB(),
     b.AnotherUsefulFunctionB(a),
     c.UsefulFunctionC(),
     c.AnotherUsefulFunctionC(a),
     c.SecondAnotherUsefulFunctionC(b)]
  }

  /** The third factory, which the session passes to the client, makes no product C */
  lemma ThirdFactoryBreaksClientCode()
    ensures !ConcreteFactory3.CreateProductC().Some?
  {
  }

  /** The client's lines, using product C only when the factory made one */
  function ClientCode(factory: Factory): (lines: seq<string>)
    ensures |lines| == if factory.CreateProductC().Some? then 5 else 2
    ensures factory.CreateProductC().Some? ==> lines == ClientCodeAsWritten(factory)
  {
    var a := factory.CreateProductA();
    var b := factory.CreateProductB();
    match factory.CreateProductC()
    case Some(c) =>
      [b.UsefulFunctionB(),
       b.AnotherUsefulFunctionB(a),
       c.UsefulFunctionC(),
       c.AnotherUsefulFunctionC(a),
       c.SecondAnotherUsefulFunctionC(b)]
    case None =>
      [b.UsefulFunctionB(),
       b.AnotherUsefulFunctionB(a)]
  }

  /** Every collaboration the client reports pairs products of the factory's own family:
      the result embedded in each of product B's lines describes a product of that family */
  lemma ClientCodeCompatibleB(factory: Factory)
    ensures var lines := ClientCode(factory);
            var a := factory.CreateProductA();
            var b := factory.CreateProductB();
            && LabelOf(lines[0]) == Some(b.Label())
            && Collaborator(b.Label(), lines[1]) == Some(Description(a.Label()))
            && a.Family() == b.Family() == factory.Family()
  {
    var lines := ClientCode(factory);
    var a := factory.CreateProductA();
    var b := factory.CreateProductB();
    assert lines[0] == b.UsefulFunctionB();
    assert lines[1] == b.AnotherUsefulFunctionB(a);
    LabelOfDescription(b.Label());
  }

  /** The same for product C's lines, when the factory makes a product C */
  lemma ClientCodeCompatibleC(factory: Factory)
    requires factory.CreateProductC().Some?
    ensures var lines := ClientCode(factory);
            var a := factory.CreateProductA();
            var b := factory.CreateProductB();
            var c := factory.CreateProductC().value;
            && LabelOf(lines[2]) == Some(c.Label())
            && Collaborator(c.Label(), lines[3]) == Some(Description(a.Label()))
            && Collaborator(c.Label(), lines[4]) == Some(Description(b.Label()))
            && c.Family() == factory.Family()
  {
    var lines := ClientCode(factory);
    var a := factory.CreateProductA();
    var b := factory.CreateProductB();
    var c := factory.CreateProductC().value;
    assert lines[2] == c.UsefulFunctionC();
    assert lines[3] == c.AnotherUsefulFunctionC(a);
    assert lines[4] == c.SecondAnotherUsefulFunctionC(b);
    LabelOfDescription(c.Label());
  }

  /** The opening of each product's collaboration line, as the product spells it out */
  lemma OpeningB1()
    ensures CollaborationHead + "B1" + CollaborationMiddle
            == "The result of the B1 collaborating with ( "
  {
    var head := CollaborationHead + "B1";
    assert head == "The result of the B1";
  }

  lemma OpeningB2()
    ensures CollaborationHead + "B2" + CollaborationMiddle
            == "The result of the B2 collaborating with ( "
  {
    var head := CollaborationHead + "B2";
    assert head == "The result of the B2";
  }

  lemma OpeningB3()
    ensures CollaborationHead + "B3" + CollaborationMiddle
            == "The result of the B3 collaborating with ( "
  {
    var head := CollaborationHead + "B3";
    assert head == "The result of the B3";
  }

  lemma OpeningC1()
    ensures CollaborationHead + "C1" + CollaborationMiddle
            == "The result of the C1 collaborating with ( "
  {
    var head := CollaborationHead + "C1";
    assert head == "The result of the C1";
  }

  lemma OpeningC2()
    ensures CollaborationHead + "C2" + CollaborationMiddle
            == "The result of the C2 collaborating with ( "
  {
    var head := CollaborationHead + "C2";
    assert head == "The result of the C2";
  }

  /** Each product B returns its own literal opening, the collaborator's description
      verbatim, and a closing parenthesis, whatever the collaborator's family */
  lemma AnotherUsefulFunctionBText(b: ProductB, a: ProductA)
    ensures var text := b.AnotherUsefulFunctionB(a);
            var result := a.UsefulFunctionA();
            match b
            case B1 => text == "The result of the B1 collaborating with ( " + result + " )"
            case B2 => text == "The result of the B2 collaborating with ( " + result + " )"
            case B3 => text == "The result of the B3 collaborating with ( " + result + " )"
  {
    match b
    case B1 => OpeningB1();
    case B2 => OpeningB2();
    case B3 => OpeningB3();
  }

  /** Both collaborations of a product C use the same literal opening */
  lemma UsefulFunctionCTexts(c: ProductC, a: ProductA, b: ProductB)
    ensures var withA := c.AnotherUsefulFunctionC(a);
            var withB := c.SecondAnotherUsefulFunctionC(b);
            match c
            case C1 =>
              && withA == "The result of the C1 collaborating with ( " + a.UsefulFunctionA() + " )"
              && withB == "The result of the C1 collaborating with ( " + b.UsefulFunctionB() + " )"
            case C2 =>
              && withA == "The result of the C2 collaborating with ( " + a.UsefulFunctionA() + " )"
              && withB == "The result of the C2 collaborating with ( " + b.UsefulFunctionB() + " )"
  {
    match c
    case C1 => OpeningC1();
    case C2 => OpeningC2();
  }

  /** The documented lines for the first family; each collaboration line is written as
      the product's literal opening, the collaborator's description and the closing */
  lemma FirstFamilyLines()
    ensures ClientCode(ConcreteFactory1) == [
      "The result of the product B1.",
      "The result of the B1 collaborating with ( " + "The result of the product A1." + " )",
      "The result of the product C1.",
      "The result of the C1 collaborating with ( " + "The result of the product A1." + " )",
      "The result of the C1 collaborating with ( " + "The result of the product B1." + " )"]
  {
    OpeningB1();
    OpeningC1();
  }

  /** The documented lines for the second family */
  lemma SecondFamilyLines()
    ensures ClientCode(ConcreteFactory2) == [
      "The result of the product B2.",
      "The result of the B2 collaborating with ( " + "The result of the product A2." + " )",
      "The result of the product C2.",
      "The result of the C2 collaborating with ( " + "The result of the product A2." + " )",
      "The result of the C2 collaborating with ( " + "The result of the product B2." + " )"]
  {
    OpeningB2();
    OpeningC2();
  }

  /** The documented lines for the third family: only product B reports */
  lemma ThirdFamilyLines()
    ensures ClientCode(ConcreteFactory3) == [
      "The result of the product B3.",
      "The result of the B3 collaborating with ( " + "The result of the product A3." + " )"]
  {
    OpeningB3();
  }
}
