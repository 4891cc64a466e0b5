/**
  The `Product` value object: one catalog listing scraped from a vendor
  website. It is a plain record of seven fields. It is built from a fixed set
  of defaults and changed only by "consume the value, return a copy with one
  field replaced" setters; getters hand back a copy of one field.
 */
module Products {
  import opened Foreign

  /** The seven fields of a product, used to speak of "every other field". */
  datatype Field = Ean13Field | DescField | SkuField | WholesaleField | ImgUrlField | MsrpField | ImapField

  datatype Product = Product(
    ean13: Ean13,
    desc: string,
    sku: string,
    wholesale: Decimal,
    imgUrl: string,
    msrp: Decimal,
    imapPrice: Decimal)
  {
    // Getters. Each observes one field and leaves the product as it was.

    function GetEan13(): (e: Ean13) { ean13 }
    function GetDesc(): (s: string) { desc }
    function GetSku(): (s: string) { sku }
    function GetImgUrl(): (s: string) { imgUrl }
    function GetMsrp(): (d: Decimal) { msrp }
    function GetImap(): (d: Decimal) { imapPrice }
    function GetWholesale(): (d: Decimal) { wholesale }

    // Setters. Each writes exactly one field and copies all the others.

    function WithEan13(v: Ean13): (r: Product)
      ensures r.GetEan13() == v
      ensures forall f :: f != Ean13Field ==> Agree(r, this, f)
    {
      this.(ean13 := v)
    }

    /** The Rust setter accepts anything with `to_string()`; it is modelled as the string that yields. */
    function WithDesc(v: string): (r: Product)
      ensures r.GetDesc() == v
      ensures forall f :: f != DescField ==> Agree(r, this, f)
    {
      this.(desc := v)
    }

    function WithSku(v: string): (r: Product)
      ensures r.GetSku() == v
      ensures forall f :: f != SkuField ==> Agree(r, this, f)
    {
      this.(sku := v)
    }

    function WithImgUrl(v: string): (r: Product)
      ensures r.GetImgUrl() == v
      ensures forall f :: f != ImgUrlField ==> Agree(r, this, f)
    {
      this.(imgUrl := v)
    }

    function WithMsrp(v: Decimal): (r: Product)
      ensures r.GetMsrp() == v
      ensures forall f :: f != MsrpField ==> Agree(r, this, f)
    {
      this.(msrp := v)
    }

    function WithImap(v: Decimal): (r: Product)
      ensures r.GetImap() == v
      ensures forall f :: f != ImapField ==> Agree(r, this, f)
    {
      this.(imapPrice := v)
    }

    function WithWholesale(v: Decimal): (r: Product)
      ensures r.GetWholesale() == v
      ensures forall f :: f != WholesaleField ==> Agree(r, this, f)
    {
      this.(wholesale := v)
    }
  }

  /** `p` and `q` hold the same value in field `f`, as seen through the getters. */
  predicate Agree(p: Product, q: Product, f: Field) {
    match f
    case Ean13Field => p.GetEan13() == q.GetEan13()
    case DescField => p.GetDesc() == q.GetDesc()
    case SkuField => p.GetSku() == q.GetSku()
    case WholesaleField => p.GetWholesale() == q.GetWholesale()
    case ImgUrlField => p.GetImgUrl() == q.GetImgUrl()
    case MsrpField => p.GetMsrp() == q.GetMsrp()
    case ImapField => p.GetImap() == q.GetImap()
  }

  /** `Product::new()`: the documented defaults. */
  function New(): (p: Product)
    ensures p.GetEan13() == DefaultEan13
    ensures p.GetDesc() == [] && p.GetSku() == []
    ensures p.GetImgUrl() == "about:blank"
    ensures p.GetWholesale() == Zero && p.GetMsrp() == Zero && p.GetImap() == Zero
  {
    Product(DefaultEan13, "", "", Zero, "about:blank", Zero, Zero)
  }

  /** `Default::default()` for a product delegates to `Product::new()`. */
  function Default(): (p: Product)
    ensures p == New()
  {
    New()
  }

  /** Two products are equal exactly when every getter agrees on them. */
  lemma Extensionality(p: Product, q: Product)
    ensures (forall f :: Agree(p, q, f)) <==> p == q
  {
    if forall f :: Agree(p, q, f) {
      assert Agree(p, q, Ean13Field) && Agree(p, q, DescField) && Agree(p, q, SkuField);
      assert Agree(p, q, WholesaleField) && Agree(p, q, ImgUrlField);
      assert Agree(p, q, MsrpField) && Agree(p, q, ImapField);
    }
  }
}
