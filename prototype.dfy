/** The prototype demonstration: a factory keeps one canonical instance per prototype
    tag and hands out copies of it; calling Method on a copy sets its field and reports. */
module Prototypes {
  import opened Wrappers
  import Decimal

  /** The closed set of registered prototype tags */
  datatype Type = Prototype1 | Prototype2 | Prototype3

  /** The name each canonical instance is constructed with (trailing space included) */
  function Name(t: Type): string {
    match t
    case Prototype1 => "PROTOTYPE_1 "
    case Prototype2 => "PROTOTYPE_2 "
    case Prototype3 => "PROTOTYPE_3 "
  }

  /** All fields of one prototype object, as a value. `field` is the base class's
      numeric field, unset until Method is called; `id` is the base class's id string,
      which nothing assigns. The concrete class's own field and id come last. */
  datatype Fields = Fields(
    variant: Type,
    name: string,
    field: Option<int>,
    id: string,
    concreteField: int,
    concreteId: string)

  /** What the factory registers for each tag: field 0 and an empty id */
  function Canonical(t: Type): Fields {
    Fields(t, Name(t), None, "", 0, "")
  }

  /** The line Method reports: a fixed opening, the name, the field's decimal text and
      the id, which ends the line */
  function Report(name: string, field: int, id: string): (r: string)
    ensures |r| == |"Method from "| + |name| + |" with field: "|
                   + |Decimal.IntToString(field)| + |" with id: "| + |id|
    ensures r[..|"Method from "|] == "Method from "
    ensures r[|r| - |id|..] == id
  {
    "Method from " + name + " with field: " + Decimal.IntToString(field) + " with id: " + id
  }

  /** The reported line carries the name, the field and the id in this order, joined by
      the fixed connectors; the field can be read back from its decimal text. */
  lemma ReportParts(name: string, field: int, id: string)
    ensures var r := Report(name, field, id);
            var digits := Decimal.IntToString(field);
            var at := |"Method from "| + |name| + |" with field: "|;
            && r[..|"Method from "|] == "Method from "
            && r[|"Method from "|..|"Method from "| + |name|] == name
            && r[|"Method from "| + |name|..at] == " with field: "
            && r[at..at + |digits|] == digits
            && Decimal.ParseInt(r[at..at + |digits|]) == field
            && r[at + |digits|..at + |digits| + |" with id: "|] == " with id: "
            && r[at + |digits| + |" with id: "|..] == id
  {
    var digits := Decimal.IntToString(field);
    var r := Report(name, field, id);
    var at := |"Method from "| + |name| + |" with field: "|;
    assert r == (("Method from " + name + " with field: ") + digits) + (" with id: " + id);
    Decimal.ParseIntToString(field);
  }

  class Prototype {
    const variant: Type
    var name: string
    var field: Option<int>
    var id: string
    var concreteField: int
    var concreteId: string

    function Snapshot(): Fields
      reads this
    {
      Fields(variant, name, field, id, concreteField, concreteId)
    }

    /** The concrete constructor: the base field stays unset, the base id empty */
    constructor (variant: Type, name: string, concreteField: int, concreteId: string)
      ensures Snapshot() == Fields(variant, name, None, "", concreteField, concreteId)
    {
      this.variant := variant;
      this.name := name;
      this.field := None;
      this.id := "";
      this.concreteField := concreteField;
      this.concreteId := concreteId;
    }

    /** The implicit copy constructor */
    constructor Copy(other: Prototype)
      ensures Snapshot() == other.Snapshot()
    {
      variant := other.variant;
      name := other.name;
      field := other.field;
      id := other.id;
      concreteField := other.concreteField;
      concreteId := other.concreteId;
    }

    /** A new object with the same field values */
    method Clone() returns (copy: Prototype)
      ensures fresh(copy) && copy.Snapshot() == Snapshot()
    {
      copy := new Prototype.Copy(this);
    }

    /** Sets the numeric field and reports; the id argument is only reported */
    method Method(newField: int, newId: string) returns (line: string)
      modifies this
      ensures Snapshot() == old(Snapshot()).(field := Some(newField))
      ensures line == Report(name, newField, newId)
    {
      field := Some(newField);
      line := Report(name, newField, newId);
    }
  }

  class PrototypeFactory {
    var prototypes: map<Type, Prototype>

    /** Every tag is registered, and its instance still holds the canonical fields */
    ghost predicate Valid()
      reads this, prototypes.Values
    {
      forall t :: t in prototypes && prototypes[t].Snapshot() == Canonical(t)
    }

    constructor ()
      ensures Valid() && fresh(prototypes.Values)
    {
      var p1 := new Prototype(Prototype1, "PROTOTYPE_1 ", 0, "");
      var p2 := new Prototype(Prototype2, "PROTOTYPE_2 ", 0, "");
      var p3 := new Prototype(Prototype3, "PROTOTYPE_3 ", 0, "");
      prototypes := map[Prototype1 := p1, Prototype2 := p2, Prototype3 := p3];
      new;
      forall t ensures t in prototypes && prototypes[t].Snapshot() == Canonical(t) {
        match t
        case Prototype1 =>
        case Prototype2 =>
        case Prototype3 =>
      }
    }

    /** A fresh copy of the canonical instance registered for t */
    method CreatePrototype(t: Type) returns (p: Prototype)
      requires Valid()
      ensures fresh(p) && p.Snapshot() == Canonical(t)
    {
      p := prototypes[t].Clone();
    }
  }

  /** Calling Method on a copy reports the canonical name and leaves the registry as it
      was: the canonical instance for every tag still holds its canonical fields. */
  method MethodOnCopy(factory: PrototypeFactory, t: Type, newField: int, newId: string)
    returns (line: string)
    requires factory.Valid()
    ensures factory.Valid()
    ensures line == Report(Name(t), newField, newId)
  {
    var p := factory.CreatePrototype(t);
    line := p.Method(newField, newId);
  }

  /** The decimal text of the three documented field values */
  lemma DocumentedDigits()
    ensures Decimal.IntToString(90) == "90"
    ensures Decimal.IntToString(10) == "10"
    ensures Decimal.IntToString(40) == "40"
  {
    assert Decimal.NatToString(9) == "9";
    assert Decimal.NatToString(1) == "1";
    assert Decimal.NatToString(4) == "4";
  }

  /** The documented line of the first copy; note the doubled space after the name */
  lemma FirstReport()
    ensures Report(Name(Prototype1), 90, "192.168.21.1")
            == "Method from PROTOTYPE_1  with field: 90 with id: 192.168.21.1"
  {
    DocumentedDigits();
    var a := "Method from " + "PROTOTYPE_1 ";
    assert a == "Method from PROTOTYPE_1 ";
    var b := a + " with field: ";
    assert b == "Method from PROTOTYPE_1  with field: ";
    var c := b + "90";
    assert c == "Method from PROTOTYPE_1  with field: 90";
    var d := c + " with id: ";
    assert d == "Method from PROTOTYPE_1  with field: 90 with id: ";
  }

  lemma SecondReport()
    ensures Report(Name(Prototype2), 10, "192.168.21.2")
            == "Method from PROTOTYPE_2  with field: 10 with id: 192.168.21.2"
  {
    DocumentedDigits();
    var a := "Method from " + "PROTOTYPE_2 ";
    assert a == "Method from PROTOTYPE_2 ";
    var b := a + " with field: ";
    assert b == "Method from PROTOTYPE_2  with field: ";
    var c := b + "10";
    assert c == "Method from PROTOTYPE_2  with field: 10";
    var d := c + " with id: ";
    assert d == "Method from PROTOTYPE_2  with field: 10 with id: ";
  }

  lemma ThirdReport()
    ensures Report(Name(Prototype3), 40, "192.168.21.3")
            == "Method from PROTOTYPE_3  with field: 40 with id: 192.168.21.3"
  {
    DocumentedDigits();
    var a := "Method from " + "PROTOTYPE_3 ";
    assert a == "Method from PROTOTYPE_3 ";
    var b := a + " with field: ";
    assert b == "Method from PROTOTYPE_3  with field: ";
    var c := b + "40";
    assert c == "Method from PROTOTYPE_3  with field: 40";
    var d := c + " with id: ";
    assert d == "Method from PROTOTYPE_3  with field: 40 with id: ";
  }

  /** The documented session: one copy per tag, each given a field and an id; the
      lines it reports are spelled out by FirstReport, SecondReport and ThirdReport */
  method Client(factory: PrototypeFactory) returns (out: seq<string>)
    requires factory.Valid()
    ensures factory.Valid()
    ensures out == [
      "Making prototypes\n",
      Report(Name(Prototype1), 90, "192.168.21.1") + "\n",
      Report(Name(Prototype2), 10, "192.168.21.2") + "\n",
      Report(Name(Prototype3), 40, "192.168.21.3") + "\n"]
  {
    var prototype := factory.CreatePrototype(Prototype1);
    var first := prototype.Method(90, "192.168.21.1");
    prototype := factory.CreatePrototype(Prototype2);
    var second := prototype.Method(10, "192.168.21.2");
    prototype := factory.CreatePrototype(Prototype3);
    var third := prototype.Method(40, "192.168.21.3");
    out := ["Making prototypes\n", first + "\n", second + "\n", third + "\n"];
  }
}
