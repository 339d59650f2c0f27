# Creational design patterns, modelled in Dafny

This project models four small C++ programs. Each one demonstrates a creational design pattern:

- **Builder** (`builder.dfy`, module `Builder`).
  - A `ConcreteBuilder1` owns a `Product1` and appends the labels `PartA1` … `PartD1` to the product's list of parts.
  - A `Director` runs three fixed recipes of part calls.
  - `GetProduct` hands the product out and starts a fresh one.
  - `Product1.ListParts` writes the parts as a comma-separated listing.
  - The product, builder and director are classes whose methods update their fields in place.
  - The listing loop is a `while` loop proved against a specification function.
- **Prototype** (`prototype.dfy`, module `Prototypes`).
  - A `PrototypeFactory` keeps one canonical instance per tag of the closed `Type` enumeration.
  - `CreatePrototype` hands out a fresh copy made by `Clone`.
  - `Method` sets the copy's numeric field and reports a line.
  - Prototypes and the factory are classes. The registry is a `map` field.
  - The factory's invariant (`Valid`) says that every tag is registered and its instance still holds the canonical fields.
- **Abstract factory** (`abstract_factory.dfy`, module `AbstractFactory`).
  - Three factories each make a product A, B and C of one family.
  - Collaboration methods embed another product's description in their own text.
  - The third factory makes no product C.
  - Everything is stateless, so products and factories are datatypes and virtual calls are matches.
- **Factory method** (`factory_method.dfy`, module `FactoryMethod`).
  - Each concrete creator's `FactoryMethod` picks a concrete product.
  - The shared `SomeOperation` reports on the product made by the creator's own factory method.

Two support modules complete the model:

- `wrappers.dfy` provides `Option`, which stands for a pointer that may be null or a field that may be unset.
- `decimal.dfy` converts integers to decimal text and back. It stands in for the stream formatting of the prototype's `float` field. That text equals what `std::cout` writes only for whole values strictly between -1000000 and 1000000 (see "## Left out").

Console output is modelled as returned strings. A `std::cout << x << "\n"` sequence becomes a returned string or a sequence of lines, in the order the program writes them. The builder and factory method models keep each line's closing newline in the returned text. In the prototype model, `Prototype.Method` returns its line without the newline that `std::endl` writes (prototype_myproject.cpp:54), and `Client` adds it to each reported line. The abstract factory's `ClientCode` returns its lines without it: each of its lines is followed by exactly one `"\n"` (abstract_factory_myproject.cpp:277-281), so nothing is lost.

## Model

| member | source | states |
|---|---|---|
| Builder.Product1.constructor | builder_myproject.cpp:33-36 | a new product has no parts |
| Builder.Product1.ListParts | builder_myproject.cpp:37-52 | the loop writes the header, then each element followed by ", " unless it equals the last element in value, then a blank line; the result is `Rendered(parts)`, and it is the plain comma join `Listing(parts)` whenever the last label does not occur earlier |
| Builder.Rendered | builder_myproject.cpp:37-52 | the listing as the source writes it: it opens with "Product parts: " and closes with the blank line "\n\n" |
| Builder.ListingStep | builder_myproject.cpp:40-50 | one turn of the loop appends the element, and the separator unless the element equals the last one in value |
| Builder.ListedAll | builder_myproject.cpp:51 | once every element has been written, the closing blank line completes the listing |
| Builder.PiecesAt | builder_myproject.cpp:40-50 | wherever an element sits, it is followed by the separator exactly when it differs in value from the last element |
| Builder.RenderedEmpty | builder_myproject.cpp:39-51 | an empty product lists as the header and the blank line only |
| Builder.RenderedIsListingWhenLastUnique | builder_myproject.cpp:37-52 | if the last label does not occur earlier in the list, the source's listing equals the intended join |
| Builder.PiecesWithoutLast | builder_myproject.cpp:40-50 | elements different from the comparison label each get exactly one separator |
| Builder.JoinLength | builder_myproject.cpp:39-51 | the intended listing puts exactly one two-character separator between neighbours |
| Builder.RenderedMissesSeparatorOfRepeat | builder_myproject.cpp:42 | for a list of two equal parts the source's listing is one separator shorter than the intended one |
| Builder.RenderedDropsSeparatorBeforeRepeat | builder_myproject.cpp:42 | the list A, D, A renders as "PartA1PartD1, PartA1": the first A loses its separator |
| Builder.ListingKeepsSeparatorBeforeRepeat | builder_myproject.cpp:37-52 | the intended listing of A, D, A is "PartA1, PartD1, PartA1" |
| Builder.PiecesOfRepeat | builder_myproject.cpp:40-50 | the elements of A, D, A, compared with A, render as "PartA1PartD1, PartA1" |
| Builder.JoinOfRepeat | builder_myproject.cpp:37-52 | A, D, A joins as "PartA1, PartD1, PartA1" |
| Builder.ConcreteBuilder1.constructor | builder_myproject.cpp:76-79 | a new builder holds a fresh, empty product, because the constructor calls Reset |
| Builder.ConcreteBuilder1.Reset | builder_myproject.cpp:86-89 | the builder points to a fresh, empty product |
| Builder.ConcreteBuilder1.ProducePartA | builder_myproject.cpp:95-98 | appends exactly "PartA1" at the end; the earlier parts are unchanged |
| Builder.ConcreteBuilder1.ProducePartB | builder_myproject.cpp:100-103 | appends exactly "PartB1" at the end; the earlier parts are unchanged |
| Builder.ConcreteBuilder1.ProducePartC | builder_myproject.cpp:105-108 | appends exactly "PartC1" at the end; the earlier parts are unchanged |
| Builder.ConcreteBuilder1.ProducePartD | builder_myproject.cpp:110-113 | appends exactly "PartD1" at the end; the earlier parts are unchanged |
| Builder.ConcreteBuilder1.GetProduct | builder_myproject.cpp:120-125 | returns the product built so far, with its parts in production order, and leaves the builder with a fresh, empty product |
| Builder.GetProductTwice | builder_myproject.cpp:120-125 | two extractions with nothing produced in between: the second product is empty and a different object; a part produced afterwards reaches the builder's new product, which then holds [PartA1], while the first keeps its parts |
| Builder.Director.constructor | builder_myproject.cpp:131-135 | a new director has no builder set |
| Builder.Director.SetBuilder | builder_myproject.cpp:137-140 | the director now drives the given builder |
| Builder.Director.BuildMinimalViableProduct | builder_myproject.cpp:145-148 | appends the recipe [PartA1] |
| Builder.Director.BuildFullFeaturedProduct | builder_myproject.cpp:150-156 | appends the recipe [PartA1, PartB1, PartC1, PartD1] |
| Builder.Director.BuildHalfFeaturedProduct | builder_myproject.cpp:158-162 | appends the recipe [PartA1, PartD1] |
| Builder.MinimalListing | builder_myproject.cpp:14-15 | the minimal recipe lists as "Product parts: PartA1" |
| Builder.JoinOfFullRecipe | builder_myproject.cpp:17-18 | the full recipe joins as "PartA1, PartB1, PartC1, PartD1" |
| Builder.FullListing | builder_myproject.cpp:17-18 | the full recipe lists as documented |
| Builder.HalfListing | builder_myproject.cpp:20-21 | the half recipe lists as documented |
| Builder.JoinOfFirstCustom | builder_myproject.cpp:23-24 | A, C, D joins as "PartA1, PartC1, PartD1" |
| Builder.FirstCustomListing | builder_myproject.cpp:23-24 | the first custom product lists as documented |
| Builder.JoinOfSecondCustom | builder_myproject.cpp:26-27 | B, C, D joins as "PartB1, PartC1, PartD1" |
| Builder.SecondCustomListing | builder_myproject.cpp:26-27 | the second custom product lists as documented |
| Builder.CustomProducts | builder_myproject.cpp:193-209 | driven without the director, the builder yields the two documented custom listings and is left with an empty product |
| Builder.ClientCode | builder_myproject.cpp:168-211 | the whole session writes the ten documented lines in order (lines 14-27) |
| Prototypes.Report | prototype_myproject.cpp:54 | the reported line opens with "Method from " and ends with the id; its length is that of the opening, the name, " with field: ", the field's decimal text, " with id: " and the id together |
| Prototypes.ReportParts | prototype_myproject.cpp:51-55 | the reported line is "Method from ", the name, " with field: ", the field's decimal text, " with id: " and the id, in that order, and the field can be parsed back from its decimal text |
| Prototypes.Prototype.constructor | prototype_myproject.cpp:70-73 | a concrete prototype holds its name and its concrete field and id; the base field is unset and the base id empty |
| Prototypes.Prototype.Copy | prototype_myproject.cpp:77 | the implicit copy constructor copies every field |
| Prototypes.Prototype.Clone | prototype_myproject.cpp:75-78 | returns a fresh object whose fields equal the original's |
| Prototypes.Prototype.Method | prototype_myproject.cpp:51-55 | sets the numeric field and changes nothing else; the id argument is only reported, never stored |
| Prototypes.PrototypeFactory.constructor | prototype_myproject.cpp:128-133 | registers all three tags, each with its name, field 0 and an empty id |
| Prototypes.PrototypeFactory.CreatePrototype | prototype_myproject.cpp:147-150 | every tag is found, and the result is a fresh object equal to the canonical instance of that tag |
| Prototypes.MethodOnCopy | prototype_myproject.cpp:162-164 | calling Method on a copy reports the canonical name and leaves every registered instance canonical |
| Prototypes.DocumentedDigits | prototype_myproject.cpp:163-171 | 90, 10 and 40 are written as "90", "10" and "40" |
| Prototypes.FirstReport | prototype_myproject.cpp:13 | the first copy reports the documented line, with two spaces after the name |
| Prototypes.SecondReport | prototype_myproject.cpp:14 | the second copy reports the documented line |
| Prototypes.ThirdReport | prototype_myproject.cpp:15 | the third copy reports the documented line |
| Prototypes.Client | prototype_myproject.cpp:158-173 | the session writes the heading and the three reports of lines 12-15, and the registry stays canonical |
| AbstractFactory.LabelOfDescription | abstract_factory_myproject.cpp:54-73 | the label can be read back from a product's description |
| AbstractFactory.DescriptionOfLabel | abstract_factory_myproject.cpp:54-73 | any text from which a label can be read is that label's description |
| AbstractFactory.DescriptionInjective | abstract_factory_myproject.cpp:54-73 | different labels give different descriptions, and the same label gives the same one |
| AbstractFactory.CollaboratorOfCollaboration | abstract_factory_myproject.cpp:98-102 | the collaborator's text can be read back, verbatim, from a collaboration line |
| AbstractFactory.CollaborationOfCollaborator | abstract_factory_myproject.cpp:98-102 | a text from which a collaborator can be read is that collaboration line |
| AbstractFactory.ProductA.UsefulFunctionA | abstract_factory_myproject.cpp:54-73 | An returns "The result of the product An." |
| AbstractFactory.ProductB.UsefulFunctionB | abstract_factory_myproject.cpp:94-97 | Bn returns "The result of the product Bn." (also lines 108-111 and 122-125) |
| AbstractFactory.ProductB.AnotherUsefulFunctionB | abstract_factory_myproject.cpp:98-102 | the collaborator's description can be read back verbatim from B's line, whatever the collaborator's family (also lines 112-116 and 126-130) |
| AbstractFactory.AnotherUsefulFunctionBText | abstract_factory_myproject.cpp:98-130 | Bn returns "The result of the Bn collaborating with ( ", then the collaborator's description, then " )" |
| AbstractFactory.ProductC.UsefulFunctionC | abstract_factory_myproject.cpp:152-173 | Cn returns "The result of the product Cn." |
| AbstractFactory.ProductC.AnotherUsefulFunctionC | abstract_factory_myproject.cpp:157-161 | the description of the product A can be read back verbatim from C's line (also lines 176-180) |
| AbstractFactory.ProductC.SecondAnotherUsefulFunctionC | abstract_factory_myproject.cpp:162-166 | the description of the product B can be read back verbatim from C's line (also lines 182-186) |
| AbstractFactory.UsefulFunctionCTexts | abstract_factory_myproject.cpp:157-186 | both collaborations of Cn use the literal opening "The result of the Cn collaborating with ( " |
| AbstractFactory.OpeningB1 | abstract_factory_myproject.cpp:101 | B1's literal opening is the shared template filled with "B1" |
| AbstractFactory.OpeningB2 | abstract_factory_myproject.cpp:115 | B2's literal opening is the shared template filled with "B2" |
| AbstractFactory.OpeningB3 | abstract_factory_myproject.cpp:129 | B3's literal opening is the shared template filled with "B3" |
| AbstractFactory.OpeningC1 | abstract_factory_myproject.cpp:160 | C1's literal opening is the shared template filled with "C1" |
| AbstractFactory.OpeningC2 | abstract_factory_myproject.cpp:179 | C2's literal opening is the shared template filled with "C2" |
| AbstractFactory.Factory.CreateProductA | abstract_factory_myproject.cpp:207-259 | factory n makes the product A of family n |
| AbstractFactory.Factory.CreateProductB | abstract_factory_myproject.cpp:207-259 | factory n makes the product B of family n |
| AbstractFactory.Factory.CreateProductC | abstract_factory_myproject.cpp:223-264 | a product C exists exactly for factories 1 and 2, and it is of the factory's family; factory 3 returns none |
| AbstractFactory.FactoryDeterminedByProducts | abstract_factory_myproject.cpp:207-259 | different factories make different products A and different products B |
| AbstractFactory.LabelsDistinct | abstract_factory_myproject.cpp:51-186 | every concrete product has its own label |
| AbstractFactory.ClientCodeAsWritten | abstract_factory_myproject.cpp:272-285 | as written, the client writes five lines and needs a product C to exist |
| AbstractFactory.ThirdFactoryBreaksClientCode | abstract_factory_myproject.cpp:261-264 | factory 3, which the session passes to the client, makes no product C |
| AbstractFactory.ClientCode | abstract_factory_myproject.cpp:272-285 | the client writes five lines when a product C exists, the same five as written, and only the two B lines otherwise |
| AbstractFactory.ClientCodeCompatibleB | abstract_factory_myproject.cpp:274-278 | B's lines describe B, and the result embedded in B's collaboration is the description of the A of the same family |
| AbstractFactory.ClientCodeCompatibleC | abstract_factory_myproject.cpp:276-281 | C's lines describe C, and its two collaborations embed the descriptions of the A and the B of the same family |
| AbstractFactory.FirstFamilyLines | abstract_factory_myproject.cpp:15-19 | the first family's five documented lines |
| AbstractFactory.SecondFamilyLines | abstract_factory_myproject.cpp:22-26 | the second family's five documented lines |
| AbstractFactory.ThirdFamilyLines | abstract_factory_myproject.cpp:29-30 | the third family's two documented lines |
| FactoryMethod.Product.Operation | factory_method_myproject.cpp:29-49 | product n returns "{Result of the ConcreteProductn}" |
| FactoryMethod.ProductOfOperation | factory_method_myproject.cpp:29-49 | the product can be read back from its operation's text |
| FactoryMethod.OperationOfProduct | factory_method_myproject.cpp:29-49 | any text from which a product can be read is that product's operation text |
| FactoryMethod.OperationInjective | factory_method_myproject.cpp:29-49 | two products report the same text exactly when they are the same product |
| FactoryMethod.Creator.FactoryMethod | factory_method_myproject.cpp:76-97 | creator n makes product n |
| FactoryMethod.Creator.SomeOperation | factory_method_myproject.cpp:60-67 | the shared text is "The same creator's code working with " followed by the operation text of the creator's own product, which can be read back |
| FactoryMethod.SomeOperationDistinct | factory_method_myproject.cpp:60-97 | two creators give the same shared text exactly when they are the same creator |
| FactoryMethod.ClientCode | factory_method_myproject.cpp:103-107 | the client writes "Connect with interface.\n", then the creator's shared text on a line of its own |
| FactoryMethod.ClientCodeTexts | factory_method_myproject.cpp:103-107 | what the client writes for each of the three creators |
| Decimal.NatToString | prototype_myproject.cpp:54 | the text of a natural number is one or more decimal digits, with no leading zero when there are several |
| Decimal.IntToString | prototype_myproject.cpp:54 | the field's text is a decimal numeral without leading zero, preceded by "-" when negative; it equals the stream output of a `float` only for whole values strictly between -1000000 and 1000000 |
| Decimal.ParseNatToString | prototype_myproject.cpp:54 | the decimal text of a natural number parses back to it |
| Decimal.ParseIntToString | prototype_myproject.cpp:54 | the decimal text of an integer, with its sign, parses back to it |

## Left out

- Console output is modelled as returned strings and lines. The `main` functions only construct a demonstration object, call the client code once per variant, write fixed headings and free memory, so they are not modelled.
  - For the abstract factory and the factory method, this leaves out the headings `main` writes between the variants ("Client: Testing …", "App: Launched with …"), and the blank lines `std::cout << std::endl` writes between them (abstract_factory_myproject.cpp:293 and 298, factory_method_myproject.cpp:118 and 122).
- Manual memory management is not modelled: `new`, `delete` and destructors. Objects are garbage-collected references, or values where the source's objects hold no state. The abstract factory's and the factory method's products are built with `new` and deleted after one use; here they are datatype values.
- Prototypes.Prototype.Method: the field is a C++ `float`; the model takes an integer and reports its plain decimal text. `std::cout` writes a `float` with six significant digits, so the model's line equals the program's only for whole values strictly between -1000000 and 1000000.
  - Not modelled: the `float` type itself; scientific notation from 10^6 in magnitude up (1000000 is written "1e+06", 1234567 "1.23457e+06"); fractional values; and the rounding of integers above 2^24, which a `float` cannot all hold.
  - Prototypes.ReportParts and Decimal.ParseIntToString are properties of the model's text. They describe the program's output only within that range.
  - The base field is uninitialised until `Method` runs; this is modelled as `None`.
- Prototypes.PrototypeFactory.CreatePrototype: an `unordered_map` lookup of a missing tag would insert a null pointer and crash. The model cannot reach that path, because all three tags are registered and the invariant `Valid` keeps them registered.
- Builder.Director.constructor: `Director` declares no constructor, and `new Director()` (builder_myproject.cpp:215) value-initialises it, so its builder pointer is null until `set_builder` is called. The model's null start is the program's own state. All three recipes (`BuildMinimalViableProduct`, `BuildFullFeaturedProduct`, `BuildHalfFeaturedProduct`) require a set builder, as every call in the source has one.
- Builder.ClientCode: the session is split into `ClientCode` and `CustomProducts` (source lines 193-209, where the builder is used without the director). Together they write the same ten lines.
- Repeated calls return identical results for every product method of the abstract factory and the factory method. In the model this holds because they are functions.
- Virtual dispatch through abstract base classes is not modelled as such.
  - The abstract factory's and the factory method's hierarchies (`AbstractFactory`, `AbstractProductA`, `Creator`, …) are closed. Each is modelled by a datatype with one constructor per concrete class and a match per virtual method.
  - The builder hierarchy has one concrete builder, `ConcreteBuilder1`. The model uses that class directly, and the director's builder field has its type, so the abstract `Builder` interface is not modelled.
  - The three concrete prototypes have identical bodies. They are one class `Prototype` with a `variant` tag of type `Type`, and their `Clone` overrides are one method.
- AbstractFactory.FirstFamilyLines: the documented lines are stated as each product's literal opening, the collaborator's literal description and the closing " )", concatenated, rather than as one merged literal. The same holds for SecondFamilyLines and ThirdFamilyLines, and FactoryMethod.ClientCodeTexts does the same for its texts.

## Findings

| source | as written | input that shows it | evidently intended | confidence | as-written member | corrected member |
|---|---|---|---|---|---|---|
| builder_myproject.cpp:42 | the separator is omitted after every element equal in value to the last element, not only after the last position | parts A, D, A render as "Product parts: PartA1PartD1, PartA1" | one ", " between neighbours: "Product parts: PartA1, PartD1, PartA1" | medium, not executed; no recipe in the session repeats a part | Builder.RenderedDropsSeparatorBeforeRepeat | Builder.ListingKeepsSeparatorBeforeRepeat |
| abstract_factory_myproject.cpp:279-281 | the client calls three methods of product C without checking that the factory made one | ConcreteFactory3, whose CreateProductC returns a null pointer (lines 261-264), is passed by the session | write only the two B lines when there is no product C, as the documented output for the third family shows (lines 28-30) | high, not executed | AbstractFactory.ClientCodeAsWritten | AbstractFactory.ClientCode |
