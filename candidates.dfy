/**
 * The product record that flows from the search sources to the replies and the chat client,
 * and the fixed URL prefixes the sources build their links from.
 */
module Candidates {
  import opened Wrappers

  /**
   * A product dictionary of the backend. Each field is `None` when the key is absent:
   * the DuckDuckGo mapper, for one, never sets `inStock`.
   */
  datatype Product = Product(
    name: Option<string>,
    price: Option<string>,
    description: Option<string>,
    image: Option<string>,
    flipkartLink: Option<string>,
    amazonLink: Option<string>,
    rating: Option<string>,
    inStock: Option<bool>)

  /** A string-to-string conversion the model does not interpret (URL quoting, title case). */
  type Encoder = string -> string

  const FlipkartSearchUrl := "https://www.flipkart.com/search?q="
  const AmazonSearchUrl := "https://www.amazon.in/s?k="
  const UnsplashUrl := "https://source.unsplash.com/400x400/?"
  const CheckWebsite := "Check website"

  /** JavaScript truthiness of an optional string: present and not empty. */
  predicate Truthy(s: Option<string>) {
    s.Some? && s.value != ""
  }

  /** Both marketplace links of a product, as the backend builds them from an encoded search term. */
  predicate HasSearchLinks(p: Product, encoded: string) {
    p.flipkartLink == Some(FlipkartSearchUrl + encoded) && p.amazonLink == Some(AmazonSearchUrl + encoded)
  }
}
