# Product listing value object (vendor-controller)

This project models the `Product` value object of the vendor-controller
library, a Rust crate for scraping catalog data from vendor websites. A
`Product` is one listing. It has seven fields: an EAN-13 barcode, a
description, a SKU, an image URL, and three exact fixed-point amounts
(wholesale cost, MSRP and IMAP, the minimum advertised price).

- `foreign.dfy` (module `Foreign`) holds the two foreign value types, `Ean13` and `Decimal`. They are abstract types with a designated default barcode and a `Zero` amount.
- `product.dfy` (module `Products`) holds the record, its constructor `New`, `Default`, the seven setters and the seven getters. A setter consumes the product and returns a copy with one field replaced. A getter returns one field. The predicate `Agree(p, q, f)` says that two products hold the same value in field `f`. It is how the contracts say "every other field is unchanged".
- `builder.dfy` (module `Builder`) models chains of setter calls, such as `Product::new().sku(s).desc(d)`. `Edit` is one setter call with its argument. `Apply` performs one call. `ApplyAll` performs a chain from left to right. The lemmas cover commutation, last write wins, rewrite-is-identity, frames over whole chains, and reachability of every product from `Product::new()`.

The Rust struct does not derive `PartialEq`. Product equality in the model
is structural datatype equality. `Extensionality` shows that this is the same
as "every getter agrees". The field `imap` is named `imapPrice` because
`imap` is a Dafny keyword. Its getter is still `GetImap` and its setter
`WithImap`.

The getters `Products.Product.GetEan13` through `GetWholesale` model
`get_ean13` through `get_wholesale` (src/product.rs:92-118). They need no
contract of their own. Dafny functions cannot change
their argument, so every getter is an observer by construction. This matches
the source, where a getter takes `&self` and returns a copy or clone. What a
getter returns is fixed by the setter contracts (get-after-set), by `New` and
by `Builder.Current`.

## Model

| member | source | states |
|---|---|---|
| Products.New | src/product.rs:26-44 | `Product::new()` has the default barcode, an empty description and SKU, image URL "about:blank", and zero wholesale, MSRP and IMAP |
| Products.Default | src/product.rs:19-23 | `Product::default()` is exactly `Product::new()` |
| Products.Product.WithEan13 | src/product.rs:46-48 | the `ean13` setter makes `get_ean13` return the new barcode and leaves the other six fields as they were |
| Products.Product.WithDesc | src/product.rs:50-58 | the `desc` setter makes `get_desc` return the new text and leaves the other six fields as they were |
| Products.Product.WithSku | src/product.rs:60-68 | the `sku` setter makes `get_sku` return the new code and leaves the other six fields as they were |
| Products.Product.WithImgUrl | src/product.rs:70-78 | the `img_url` setter makes `get_img_url` return the new URL and leaves the other six fields as they were |
| Products.Product.WithMsrp | src/product.rs:80-82 | the `msrp` setter makes `get_msrp` return the new amount and leaves the other six fields as they were |
| Products.Product.WithImap | src/product.rs:84-86 | the `imap` setter makes `get_imap` return the new amount and leaves the other six fields as they were |
| Products.Product.WithWholesale | src/product.rs:88-90 | the `wholesale` setter makes `get_wholesale` return the new amount and leaves the other six fields as they were |
| Products.Extensionality | src/product.rs:9-17 | two products are equal if and only if all seven getters agree on them (value semantics, no identity) |
| Builder.Apply | src/product.rs:46-90 | any setter call leaves its argument in its own field and leaves every field it does not write unchanged |
| Builder.Current | src/product.rs:92-118 | reading a field through its getter gives a setter argument that the product already holds |
| Builder.SettersCommute | src/product.rs:46-90 | setters on distinct fields commute, e.g. `p.sku(a).desc(b) == p.desc(b).sku(a)` |
| Builder.LastWriteWins | src/product.rs:46-90 | of two setter calls on the same field the last one wins, e.g. `p.imap(x).imap(y) == p.imap(y)` |
| Builder.RewriteIsIdentity | src/product.rs:46-118 | writing back the value a getter returned changes nothing, e.g. `p.imap(p.get_imap()) == p` |
| Builder.ApplyAllAppend | src/product.rs:46-90 | running one setter chain and then another is the same as running their concatenation |
| Builder.ChainFrame | src/product.rs:46-90 | a field that no setter of a chain writes keeps its value through the whole chain |
| Builder.ChainLastWrite | src/product.rs:46-90 | after a chain, each field holds the value of the last setter in the chain that writes it |
| Builder.ChainSwap | src/product.rs:46-90 | swapping two neighbouring setter calls on distinct fields anywhere in a chain does not change the result |
| Builder.EveryProductIsBuilt | src/product.rs:26-90 | every product equals `Product::new()` followed by its seven setters, so no field value needs to be given up front |

## Left out

- Ean13: the barcode type of the external `ean13` crate is abstract. Its check-digit validation and the digits of `Ean13::default()` are not modelled. The doc comment at src/product.rs:27 gives that default as twelve zeros, and the crate's own definition is not part of this model.
- Decimal: the `rust_decimal` amount type is abstract. Its arithmetic, scale and 96-bit mantissa are not modelled, because a product only stores and copies amounts.
- Products.Product.WithDesc, Products.Product.WithSku and Products.Product.WithImgUrl take the string that the source's generic `S: ToString` argument produces. The `to_string` conversion itself belongs to the caller's type and is not modelled.
- The `Debug`, `Serialize` and `Deserialize` derives (src/product.rs:8) are generated code, and the wire format is not fixed by this crate.
- Ownership is not modelled: a Rust setter moves `self`, and the model returns a new value instead. No caller can see the difference, because the moved value cannot be used afterwards.
- `ChromeClient::init` (src/lib.rs:17-40) only opens a WebDriver session over the network. It is I/O and is not modelled.
- The `VendorController` trait (src/controller.rs:5-12) declares two async signatures with no bodies. There is no logic in it to model.
- `parse_price_nonstrict` is re-exported at src/lib.rs:8. Its body is not part of this model, so it is not reconstructed.
