/**
 * The two listing schemas: the product listing and the tool rental listing.
 * Every field is a string with a minimum length and its own message; a
 * record is valid when no field is too short, and the issues come out in the
 * order the fields are declared. Nothing is parsed as a number.
 */
module ListingSchemas {
  import opened Wrappers

  /** `z.string().min(min, message)` on the field called `field`. */
  datatype Rule = Rule(field: string, min: nat, message: string)

  /** A reported problem: the field and its message. */
  datatype Issue = Issue(path: string, message: string)

  predicate Satisfies(value: string, rule: Rule) {
    |value| >= rule.min
  }

  function IssueOf(rule: Rule): Issue {
    Issue(rule.field, rule.message)
  }

  /** The issues of a record, one per field that is too short, in field order. */
  function SchemaIssues(rules: seq<Rule>, values: seq<string>): (issues: seq<Issue>)
    requires |values| == |rules|
    ensures |issues| <= |rules|
    ensures issues == [] <==> forall i :: 0 <= i < |rules| ==> Satisfies(values[i], rules[i])
    decreases |rules|
  {
    if rules == [] then []
    else
      var rest := SchemaIssues(rules[1..], values[1..]);
      assert forall i :: 1 <= i < |rules| ==> rules[i] == rules[1..][i - 1] && values[i] == values[1..][i - 1];
      if Satisfies(values[0], rules[0]) then rest else [IssueOf(rules[0])] + rest
  }

  /** Every field that is too short is reported with its own message. */
  lemma {:induction false} FailingFieldReported(rules: seq<Rule>, values: seq<string>, i: nat)
    requires |values| == |rules| && i < |rules|
    requires !Satisfies(values[i], rules[i])
    ensures IssueOf(rules[i]) in SchemaIssues(rules, values)
    decreases i
  {
    if i > 0 {
      assert rules[1..][i - 1] == rules[i] && values[1..][i - 1] == values[i];
      FailingFieldReported(rules[1..], values[1..], i - 1);
    }
  }

  /** Every issue reported belongs to a field that is too short. */
  lemma {:induction false} IssueExplained(rules: seq<Rule>, values: seq<string>, k: nat)
    requires |values| == |rules| && k < |SchemaIssues(rules, values)|
    ensures exists i :: 0 <= i < |rules| && !Satisfies(values[i], rules[i]) && SchemaIssues(rules, values)[k] == IssueOf(rules[i])
    decreases |rules|
  {
    var issues := SchemaIssues(rules, values);
    var rest := SchemaIssues(rules[1..], values[1..]);
    if !Satisfies(values[0], rules[0]) && k == 0 {
      assert issues[0] == IssueOf(rules[0]);
    } else {
      var k' := if Satisfies(values[0], rules[0]) then k else k - 1;
      assert issues[k] == rest[k'];
      IssueExplained(rules[1..], values[1..], k');
      var i :| 0 <= i < |rules| - 1 && !Satisfies(values[1..][i], rules[1..][i]) && rest[k'] == IssueOf(rules[1..][i]);
      assert rules[i + 1] == rules[1..][i] && values[i + 1] == values[1..][i];
    }
  }

  /** The product listing form. */
  datatype ProductListing = ProductListing(
    productName: string,
    category: string,
    quantity: string,
    unit: string,
    price: string,
    description: string,
    location: string,
    imageUrl: Option<string>)

  /** `formSchema`, field by field; `imageUrl` is optional and carries no rule. */
  const ProductSchema: seq<Rule> := [
    Rule("productName", 2, "Product name must be at least 2 characters"),
    Rule("category", 1, "Please select a category"),
    Rule("quantity", 1, "Quantity is required"),
    Rule("unit", 1, "Please select a unit"),
    Rule("price", 1, "Price is required"),
    Rule("description", 10, "Description must be at least 10 characters"),
    Rule("location", 2, "Location is required")
  ]

  function ProductValues(p: ProductListing): seq<string> {
    [p.productName, p.category, p.quantity, p.unit, p.price, p.description, p.location]
  }

  function ProductIssues(p: ProductListing): (issues: seq<Issue>)
  {
    SchemaIssues(ProductSchema, ProductValues(p))
  }

  /** A product listing is valid exactly when every length bound holds. */
  lemma ProductValidIff(p: ProductListing)
    ensures ProductIssues(p) == [] <==>
      && |p.productName| >= 2 && p.category != "" && p.quantity != "" && p.unit != ""
      && p.price != "" && |p.description| >= 10 && |p.location| >= 2
  {
    var vs := ProductValues(p);
    assert forall i :: 0 <= i < 7 ==> (Satisfies(vs[i], ProductSchema[i]) <==> |vs[i]| >= ProductSchema[i].min);
  }

  /** The image is never checked: any image, or none, leaves the issues as they were. */
  lemma {:induction false} ImageIrrelevant(p: ProductListing, image: Option<string>)
    ensures ProductIssues(p.(imageUrl := image)) == ProductIssues(p)
  {
    assert ProductValues(p.(imageUrl := image)) == ProductValues(p);
  }

  /** Quantity and price are only required to be non-empty: "0" and "abc" pass. */
  lemma {:induction false} NoNumericCheck(p: ProductListing)
    requires |p.productName| >= 2 && p.category != "" && p.unit != ""
    requires |p.description| >= 10 && |p.location| >= 2
    ensures ProductIssues(p.(quantity := "0", price := "abc")) == []
  {
    ProductValidIff(p.(quantity := "0", price := "abc"));
  }

  /** The tool rental listing form. */
  datatype ToolListing = ToolListing(
    toolName: string,
    category: string,
    rentalDuration: string,
    pricePerDay: string,
    description: string,
    location: string)

  /** `rentingFormSchema`, field by field; it has no image field. */
  const ToolSchema: seq<Rule> := [
    Rule("toolName", 2, "Tool name must be at least 2 characters"),
    Rule("category", 1, "Please select a category"),
    Rule("rentalDuration", 1, "Rental duration is required"),
    Rule("pricePerDay", 1, "Price per day is required"),
    Rule("description", 10, "Description must be at least 10 characters"),
    Rule("location", 2, "Location is required")
  ]

  function ToolValues(t: ToolListing): seq<string> {
    [t.toolName, t.category, t.rentalDuration, t.pricePerDay, t.description, t.location]
  }

  function ToolIssues(t: ToolListing): (issues: seq<Issue>)
  {
    SchemaIssues(ToolSchema, ToolValues(t))
  }

  /** A tool listing is valid exactly when every length bound holds. */
  lemma ToolValidIff(t: ToolListing)
    ensures ToolIssues(t) == [] <==>
      && |t.toolName| >= 2 && t.category != "" && t.rentalDuration != ""
      && t.pricePerDay != "" && |t.description| >= 10 && |t.location| >= 2
  {
    var vs := ToolValues(t);
    assert forall i :: 0 <= i < 6 ==> (Satisfies(vs[i], ToolSchema[i]) <==> |vs[i]| >= ToolSchema[i].min);
  }

  /** Rental duration and price per day are only required to be non-empty: "0" and "abc" pass. */
  lemma {:induction false} ToolNoNumericCheck(t: ToolListing)
    requires |t.toolName| >= 2 && t.category != ""
    requires |t.description| >= 10 && |t.location| >= 2
    ensures ToolIssues(t.(rentalDuration := "0", pricePerDay := "abc")) == []
  {
    ToolValidIff(t.(rentalDuration := "0", pricePerDay := "abc"));
  }

  /** A description of nine characters is reported with its own message, whatever else the form holds. */
  lemma {:induction false} ShortDescriptionReported(t: ToolListing)
    requires |t.description| == 9
    ensures Issue("description", "Description must be at least 10 characters") in ToolIssues(t)
  {
    FailingFieldReported(ToolSchema, ToolValues(t), 4);
  }
}
