/**
  Setter chains. A product is built the way its callers build it: start from
  `Product::new()` and call setters one after another, each consuming the
  previous value (`Product::new().sku(s).desc(d)...`). Here a setter call is
  a value of `Edit`, and a chain is a sequence of edits applied left to right.
 */
module Builder {
  import opened Foreign
  import opened Products

  /** One setter call together with its argument. */
  datatype Edit =
    | SetEan13(Ean13)
    | SetDesc(string)
    | SetSku(string)
    | SetImgUrl(string)
    | SetMsrp(Decimal)
    | SetImap(Decimal)
    | SetWholesale(Decimal)
  {
    /** The one field the setter writes. */
    function Target(): (f: Field) {
      match this
      case SetEan13(_) => Ean13Field
      case SetDesc(_) => DescField
      case SetSku(_) => SkuField
      case SetImgUrl(_) => ImgUrlField
      case SetMsrp(_) => MsrpField
      case SetImap(_) => ImapField
      case SetWholesale(_) => WholesaleField
    }
  }

  /** `p` holds, in the field `e` writes, the value `e` writes there. */
  predicate Holds(p: Product, e: Edit) {
    match e
    case SetEan13(v) => p.GetEan13() == v
    case SetDesc(v) => p.GetDesc() == v
    case SetSku(v) => p.GetSku() == v
    case SetImgUrl(v) => p.GetImgUrl() == v
    case SetMsrp(v) => p.GetMsrp() == v
    case SetImap(v) => p.GetImap() == v
    case SetWholesale(v) => p.GetWholesale() == v
  }

  /** Calling the setter `e` on `p`. */
  function Apply(p: Product, e: Edit): (r: Product)
    ensures Holds(r, e)
    ensures forall f :: f != e.Target() ==> Agree(r, p, f)
  {
    match e
    case SetEan13(v) => p.WithEan13(v)
    case SetDesc(v) => p.WithDesc(v)
    case SetSku(v) => p.WithSku(v)
    case SetImgUrl(v) => p.WithImgUrl(v)
    case SetMsrp(v) => p.WithMsrp(v)
    case SetImap(v) => p.WithImap(v)
    case SetWholesale(v) => p.WithWholesale(v)
  }

  /** The setter call that writes back the value `p` already holds in field `f`. */
  function Current(p: Product, f: Field): (e: Edit)
    ensures e.Target() == f && Holds(p, e)
  {
    match f
    case Ean13Field => SetEan13(p.GetEan13())
    case DescField => SetDesc(p.GetDesc())
    case SkuField => SetSku(p.GetSku())
    case ImgUrlField => SetImgUrl(p.GetImgUrl())
    case MsrpField => SetMsrp(p.GetMsrp())
    case ImapField => SetImap(p.GetImap())
    case WholesaleField => SetWholesale(p.GetWholesale())
  }

  /** Setters on distinct fields commute: `p.sku(a).desc(b) == p.desc(b).sku(a)`. */
  lemma SettersCommute(p: Product, a: Edit, b: Edit)
    requires a.Target() != b.Target()
    ensures Apply(Apply(p, a), b) == Apply(Apply(p, b), a)
  {
  }

  /** The last of two writes to the same field wins: `p.imap(x).imap(y) == p.imap(y)`. */
  lemma LastWriteWins(p: Product, a: Edit, b: Edit)
    requires a.Target() == b.Target()
    ensures Apply(Apply(p, a), b) == Apply(p, b)
  {
  }

  /** Writing a field's current value back is the identity: `p.imap(p.get_imap()) == p`. */
  lemma RewriteIsIdentity(p: Product, e: Edit)
    requires Holds(p, e)
    ensures Apply(p, e) == p
  {
  }

  /** A chain of setter calls, applied left to right to `p`. */
  function ApplyAll(p: Product, edits: seq<Edit>): (r: Product)
    decreases |edits|
  {
    if edits == [] then p else ApplyAll(Apply(p, edits[0]), edits[1..])
  }

  /** A chain that starts, as every construction does, from `Product::new()`. */
  function Build(edits: seq<Edit>): (r: Product) {
    ApplyAll(New(), edits)
  }

  /** No edit in `edits` writes field `f`. */
  predicate Untouched(edits: seq<Edit>, f: Field) {
    forall i :: 0 <= i < |edits| ==> edits[i].Target() != f
  }

  /** Running two chains one after the other is running their concatenation. */
  lemma {:induction false} ApplyAllAppend(p: Product, s: seq<Edit>, t: seq<Edit>)
    ensures ApplyAll(p, s + t) == ApplyAll(ApplyAll(p, s), t)
    decreases |s|
  {
    if s != [] {
      assert (s + t)[0] == s[0];
      assert (s + t)[1..] == s[1..] + t;
      ApplyAllAppend(Apply(p, s[0]), s[1..], t);
    } else {
      assert s + t == t;
    }
  }

  /** A field that no setter of the chain writes keeps its value. */
  lemma {:induction false} ChainFrame(p: Product, edits: seq<Edit>, f: Field)
    requires Untouched(edits, f)
    ensures Agree(ApplyAll(p, edits), p, f)
    decreases |edits|
  {
    if edits != [] {
      assert edits[0].Target() != f;
      ChainFrame(Apply(p, edits[0]), edits[1..], f);
    }
  }

  /** After a chain, a field holds what the last setter that writes it wrote. */
  lemma {:induction false} ChainLastWrite(p: Product, edits: seq<Edit>, k: nat)
    requires k < |edits|
    requires Untouched(edits[k + 1..], edits[k].Target())
    ensures Holds(ApplyAll(p, edits), edits[k])
  {
    var e := edits[k];
    var q := ApplyAll(p, edits[..k]);
    assert edits == edits[..k] + [e] + edits[k + 1..];
    ApplyAllAppend(p, edits[..k] + [e], edits[k + 1..]);
    ApplyAllAppend(p, edits[..k], [e]);
    assert ApplyAll(q, [e]) == Apply(q, e);
    ChainFrame(Apply(q, e), edits[k + 1..], e.Target());
  }

  /** A chain of two setter calls is the two calls in turn. */
  lemma ApplyAllPair(p: Product, a: Edit, b: Edit)
    ensures ApplyAll(p, [a, b]) == Apply(Apply(p, a), b)
  {
    var q := Apply(p, a);
    assert [a, b][1..] == [b];
    assert ApplyAll(p, [a, b]) == ApplyAll(q, [b]);
    assert [b][1..] == [];
    assert ApplyAll(q, [b]) == ApplyAll(Apply(q, b), []);
  }

  /** Swapping two neighbouring setter calls on distinct fields leaves the result unchanged. */
  lemma {:induction false} ChainSwap(p: Product, s: seq<Edit>, a: Edit, b: Edit, t: seq<Edit>)
    requires a.Target() != b.Target()
    ensures ApplyAll(p, s + [a, b] + t) == ApplyAll(p, s + [b, a] + t)
  {
    var q := ApplyAll(p, s);
    ApplyAllAppend(p, s + [a, b], t);
    ApplyAllAppend(p, s + [b, a], t);
    ApplyAllAppend(p, s, [a, b]);
    ApplyAllAppend(p, s, [b, a]);
    ApplyAllPair(q, a, b);
    ApplyAllPair(q, b, a);
    SettersCommute(q, a, b);
  }

  /** The seven setter calls that write every field of `p`. */
  function Spell(p: Product): (edits: seq<Edit>) {
    [ Current(p, Ean13Field), Current(p, DescField), Current(p, SkuField),
      Current(p, ImgUrlField), Current(p, MsrpField), Current(p, ImapField),
      Current(p, WholesaleField) ]
  }

  /** Every product can be built from `Product::new()` by setters alone, whatever the defaults. */
  lemma {:induction false} EveryProductIsBuilt(p: Product)
    ensures Build(Spell(p)) == p
  {
    var s := Spell(p);
    var r := Build(s);
    forall f ensures Agree(r, p, f) {
      var k := match f
        case Ean13Field => 0
        case DescField => 1
        case SkuField => 2
        case ImgUrlField => 3
        case MsrpField => 4
        case ImapField => 5
        case WholesaleField => 6;
      ChainLastWrite(New(), s, k);
    }
    Extensionality(r, p);
  }
}
