/**
 * The shop listing (src/app/shop/page.tsx): conversion of a backend product
 * to the storefront's product, the listing request, the page buttons and
 * the sample-data fallback on a network failure.
 */
module Shop {
  import opened Wrappers
  import opened Text
  import CartContext

  /** The backend's product; only the fields the conversion reads. */
  datatype ApiProduct = ApiProduct(
    id: int, name: string, slug: string, price: int, priceFormatted: string, image: string,
    category: string, description: string, rating: real, reviews: int, sku: string, tags: seq<string>)

  /** convertAPIProductToLocal: the formatted price becomes the product's price string. */
  function ToLocal(p: ApiProduct): (r: CartContext.Product)
    ensures r.id == p.id && r.name == p.name && r.price == p.priceFormatted && r.image == p.image
    ensures r.category == p.category && r.description == p.description && r.rating == p.rating
    ensures r.reviews == p.reviews && r.sku == p.sku && r.tags == p.tags
  {
    CartContext.Product(p.id, p.name, p.priceFormatted, p.image, p.category, p.description,
                        p.rating, p.reviews, p.sku, p.tags)
  }

  /** A product whose formatted price is the numeral of its price plus a non-digit suffix is
      priced in the cart at exactly that price. */
  lemma ConvertedPriceReadsBack(p: ApiProduct, suffix: string)
    requires p.price >= 0 && p.priceFormatted == Show(p.price) + suffix && Digits(suffix) == []
    ensures CartContext.UnitPrice(ToLocal(p).price) == Some(p.price)
  {
    CartContext.UnitPriceOfShown(p.price, suffix);
  }

  datatype ProductsQuery = ProductsQuery(page: int, limit: int, category: Option<string>, sort: string)

  /** The request of loadProducts: an empty category is left out. */
  function Query(currentPage: int, selectedCategory: string, sortBy: string): (q: ProductsQuery)
    ensures q.page == currentPage && q.limit == 12 && q.sort == sortBy
    ensures q.category.None? <==> selectedCategory == ""
    ensures q.category.Some? ==> q.category.value == selectedCategory
  {
    ProductsQuery(currentPage, 12, if selectedCategory == "" then None else Some(selectedCategory), sortBy)
  }

  /** `Array.from({ length: totalPages }, (_, i) => i + 1)` */
  function PageNumbers(totalPages: nat): seq<int> {
    if totalPages == 0 then [] else PageNumbers(totalPages - 1) + [totalPages]
  }

  /** The buttons are 1..totalPages, each once, ascending. */
  lemma {:induction false} PageNumbersAscending(totalPages: nat)
    ensures |PageNumbers(totalPages)| == totalPages
    ensures forall i :: 0 <= i < totalPages ==> PageNumbers(totalPages)[i] == i + 1
    ensures forall p :: p in PageNumbers(totalPages) <==> 1 <= p <= totalPages
  {
    if totalPages > 0 {
      PageNumbersAscending(totalPages - 1);
      var s := PageNumbers(totalPages);
      forall p | 1 <= p <= totalPages ensures p in s {
        assert s[p - 1] == p;
      }
    }
  }

  /** The listing after a failed load. */
  datatype FailureView = SampleData(notice: string) | ErrorOnly(notice: string)

  const SampleNotice := "⚠️ Đang sử dụng dữ liệu mẫu. Backend API chưa khả dụng."
  const LoadFailedNotice := "Không thể tải sản phẩm. Vui lòng thử lại sau."

  /** Only a "Network Error" or "ECONNREFUSED" message switches to the bundled sample
      products, and only if they load. */
  function OnLoadError(message: Option<string>, samplesLoad: bool): (v: FailureView)
    ensures v.SampleData? <==>
      samplesLoad && message.Some? && (Contains(message.value, "Network Error") || Contains(message.value, "ECONNREFUSED"))
    ensures v.ErrorOnly? ==> v.notice == LoadFailedNotice
  {
    if message.Some? && (Contains(message.value, "Network Error") || Contains(message.value, "ECONNREFUSED")) then
      if samplesLoad then SampleData(SampleNotice) else ErrorOnly(LoadFailedNotice)
    else ErrorOnly(LoadFailedNotice)
  }
}
