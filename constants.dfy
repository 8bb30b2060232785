/** The application-wide constants that the modelled core reads. */
module Constants {
  /** Minimum number of characters before the search query filters anything. */
  const QueryMinLengthToSearch: int := 3

  /** Default quantity from which a bulk discount applies. */
  const BulkAmountLimit: int := 3

  /** Navigation argument keys. */
  const ProductNamesKey: string := "product_name"
  const NameKey: string := "name"
  const TitleKey: string := "title"

  /** Product images, keyed by product code. */
  const ImageUrls: map<string, seq<string>> := map[
    "TSHIRT" := [
      "https://static.vecteezy.com/system/resources/previews/012/628/161/non_2x/isolated-regular-plain-black-back-t-shirt-free-png.png",
      "https://i.pinimg.com/originals/bd/ef/cb/bdefcbc72735f64db17f3250b1e64245.png",
      "https://jersix.com/wp-content/uploads/2020/07/x-shirt-wild-magliette-personalizzate.png.png"
    ],
    "MUG" := [
      "https://www.pngall.com/wp-content/uploads/2/Mug-PNG-Pic.png",
      "https://www.pngall.com/wp-content/uploads/2/Mug.png",
      "https://www.pngall.com/wp-content/uploads/2/Mug-PNG-Image-HD.png"
    ],
    "VOUCHER" := [
      "https://www.greenback.com/assets/f/blogs/how-to-configure-quickbooks-online-for-gift-cards/hdr.png",
      "https://www.becajun.com/wp-content/uploads/2020/06/25-amazon-gift-card-png-1.png"
    ]
  ]
}
