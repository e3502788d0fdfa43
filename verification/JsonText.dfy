/** Compact JSON text, as far as the projection budget measures it
    (crates/node-agent/src/compile.rs:370-462, 517-541). */
module JsonText {

  /** A scalar carries its own rendered text. */
  datatype Json = Scalar(text: string) | Array(items: seq<Json>) | Object(fields: seq<Field>)
  datatype Field = Field(name: string, value: Json)

  function Text(v: Json): string {
    match v
    case Scalar(text) => text
    case Array(items) => "[" + ItemsText(items) + "]"
    case Object(fields) => "{" + FieldsText(fields) + "}"
  }

  function ItemsText(items: seq<Json>): string {
    if items == [] then ""
    else if |items| == 1 then Text(items[0])
    else Text(items[0]) + "," + ItemsText(items[1..])
  }

  function FieldText(f: Field): string {
    "\"" + f.name + "\":" + Text(f.value)
  }

  function FieldsText(fields: seq<Field>): string {
    if fields == [] then ""
    else if |fields| == 1 then FieldText(fields[0])
    else FieldText(fields[0]) + "," + FieldsText(fields[1..])
  }

  function Size(v: Json): nat {
    |Text(v)|
  }

  function Quote(s: string): Json {
    Scalar("\"" + s + "\"")
  }

  // ---------------------------------------------------------------- client chains

  type Chain = seq<Json>
  type Chains = seq<Chain>

  function ChainJson(chain: Chain): Json {
    Object([Field("chain", Array(chain))])
  }

  function ChainItems(chains: Chains): (r: seq<Json>)
    ensures |r| == |chains| && forall i | 0 <= i < |r| :: r[i] == ChainJson(chains[i])
  {
    if chains == [] then [] else [ChainJson(chains[0])] + ChainItems(chains[1..])
  }

  function ChainsJson(chains: Chains): Json {
    Array(ChainItems(chains))
  }

  function HopCount(chains: Chains): nat {
    if chains == [] then 0 else |chains[0]| + HopCount(chains[1..])
  }

  function ElementBytes(chains: Chains): nat {
    if chains == [] then 0 else Size(ChainJson(chains[0])) + ElementBytes(chains[1..])
  }

  datatype Cost = Cost(hops: nat, bytes: nat)

  /** What a list of chains needs, without rendering the list. */
  datatype Projection = Projection(hops: nat, count: nat, elementBytes: nat) {
    function Append(other: Projection): Projection {
      Projection(hops + other.hops, count + other.count, elementBytes + other.elementBytes)
    }

    /** Brackets, and the commas between the elements. */
    function CostWith(selectionBytes: nat): Cost {
      Cost(hops, elementBytes + 2 + (if count == 0 then 0 else count - 1) + selectionBytes)
    }
  }

  function Measure(chains: Chains): Projection {
    Projection(HopCount(chains), |chains|, ElementBytes(chains))
  }

  /** `ClientChainsProjection::inspect`. */
  method Inspect(chains: Chains) returns (p: Projection)
    ensures p == Measure(chains)
  {
    hide Size, ChainJson;
    p := Projection(0, 0, 0);
    for i := 0 to |chains|
      invariant p == Measure(chains[..i])
    {
      assert chains[..i + 1] == chains[..i] + [chains[i]];
      MeasureConcat(chains[..i], [chains[i]]);
      MeasureOne(chains[i]);
      p := Projection(p.hops + |chains[i]|, p.count + 1, p.elementBytes + Size(ChainJson(chains[i])));
    }
    assert chains[..|chains|] == chains;
  }

  lemma {:induction false} HopsConcat(a: Chains, b: Chains)
    ensures HopCount(a + b) == HopCount(a) + HopCount(b)
  {
    if a == [] {
      assert a + b == b;
    } else {
      HopsConcat(a[1..], b);
      assert (a + b)[1..] == a[1..] + b && (a + b)[0] == a[0];
    }
  }

  lemma {:induction false} BytesConcat(a: Chains, b: Chains)
    ensures ElementBytes(a + b) == ElementBytes(a) + ElementBytes(b)
  {
    hide Size, ChainJson;
    if a == [] {
      assert a + b == b;
    } else {
      BytesConcat(a[1..], b);
      assert (a + b)[1..] == a[1..] + b && (a + b)[0] == a[0];
    }
  }

  lemma MeasureConcat(a: Chains, b: Chains)
    ensures Measure(a + b) == Measure(a).Append(Measure(b))
  {
    hide HopCount, ElementBytes;
    HopsConcat(a, b);
    BytesConcat(a, b);
  }

  lemma MeasureOne(chain: Chain)
    ensures Measure([chain]) == Projection(|chain|, 1, Size(ChainJson(chain)))
  {
    hide Size, ChainJson;
    var one := [chain];
    assert one[1..] == [];
    assert HopCount(one) == |chain| + HopCount([]);
    assert ElementBytes(one) == Size(ChainJson(chain)) + ElementBytes([]);
  }

  lemma {:induction false} ItemsBytes(chains: Chains)
    ensures |ItemsText(ChainItems(chains))| == ElementBytes(chains) + if chains == [] then 0 else |chains| - 1
  {
    var items := ChainItems(chains);
    if |chains| == 1 {
      assert chains[1..] == [];
    } else if |chains| > 1 {
      ItemsBytes(chains[1..]);
      assert items[1..] == ChainItems(chains[1..]);
    }
  }

  /** The measured cost of an action is the length of its text: the rendered list of chains plus
      the rendered selection. */
  lemma CostIsText(chains: Chains, selectionBytes: nat)
    ensures Measure(chains).CostWith(selectionBytes)
         == Cost(HopCount(chains), Size(ChainsJson(chains)) + selectionBytes)
  {
    ItemsBytes(chains);
  }

  // ---------------------------------------------------------------- replacing a field

  function Replace(fields: seq<Field>, name: string, value: Json): (r: seq<Field>)
    ensures |r| == |fields|
    ensures forall i | 0 <= i < |r| :: r[i] == if fields[i].name == name then Field(name, value) else fields[i]
  {
    if fields == [] then [] else
      [if fields[0].name == name then Field(name, value) else fields[0]] + Replace(fields[1..], name, value)
  }

  /** A value of the same length takes the same room. */
  lemma {:induction false} ReplaceBytes(fields: seq<Field>, name: string, value: Json)
    requires forall i | 0 <= i < |fields| && fields[i].name == name :: Size(fields[i].value) == Size(value)
    ensures |FieldsText(Replace(fields, name, value))| == |FieldsText(fields)|
  {
    var r := Replace(fields, name, value);
    if fields != [] {
      ReplaceBytes(fields[1..], name, value);
      assert r[1..] == Replace(fields[1..], name, value);
      assert |FieldText(r[0])| == |FieldText(fields[0])|;
    }
  }
}
