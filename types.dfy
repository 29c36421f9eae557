/** The storefront's record types (frontend/src/types.ts). Money is exact `real` rupees. */
module Types {
  import opened Common

  datatype Product = Product(
    id: string,
    name: string,
    description: string,
    price: real,
    mrp: real,
    imageUrl: Option<string>,
    category: Option<string>,
    isActive: bool,
    sequenceNumber: Option<real>)

  /** One submitted order line. */
  datatype CartItem = CartItem(id: string, name: string, quantity: int, price: real, mrp: real)

  /**
   * `Partial<Product>`, the admin edit form: a field is `None` when the key is
   * absent from the object, so spreading the form over a product keeps that field.
   */
  datatype ProductDraft = ProductDraft(
    id: Option<string>,
    name: Option<string>,
    description: Option<string>,
    price: Option<real>,
    mrp: Option<real>,
    imageUrl: Option<string>,
    category: Option<string>,
    isActive: Option<bool>,
    sequenceNumber: Option<real>)

  const EmptyDraft := ProductDraft(None, None, None, None, None, None, None, None, None)

  /** `setForm(p)`: the form starts as a copy of every key the product has. */
  function DraftOf(p: Product): ProductDraft
  {
    ProductDraft(Some(p.id), Some(p.name), Some(p.description), Some(p.price), Some(p.mrp),
                 p.imageUrl, p.category, Some(p.isActive), p.sequenceNumber)
  }
}
