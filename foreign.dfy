/**
  The two value types a product listing borrows from external crates.
  Their internals (EAN-13 check-digit validation, decimal arithmetic and
  scale) belong to those crates and are kept abstract here: a product
  only stores, copies and compares them.
 */
module Foreign {

  /** A GS1 EAN-13 retail barcode, as provided by the `ean13` crate. */
  type Ean13(==, 0)

  /** The barcode `Ean13::default()` yields; its digits are the crate's business. */
  const DefaultEan13: Ean13

  /** An exact fixed-point decimal amount, as provided by the `rust_decimal` crate. */
  type Decimal(==, 0)

  /** `Decimal::zero()`, the amount $0.00. */
  const Zero: Decimal
}
