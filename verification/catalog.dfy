/** The catalogue's product record, read-only from the storefront's side. */
module Catalog {

  datatype Rating = Rating(rate: real, count: int)

  /** A product as the catalogue service returns it; prices are exact reals. */
  datatype Product = Product(
    id: int,
    title: string,
    price: real,
    description: string,
    category: string,
    image: string,
    rating: Rating)
}
