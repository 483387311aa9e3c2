/** The card that shows one generated plot. */
module PlotCard {
  import opened Text

  const ImagePrefix := "data:image"
  const PngPrefix := "data:image/png;base64,"

  /** The `src` of the card's image: a data URL is kept, anything else is taken for bare
      base64 PNG data and prefixed. */
  function ImageSource(image: string): (src: string)
    ensures StartsWith(src, ImagePrefix)
    ensures StartsWith(image, ImagePrefix) ==> src == image
    ensures !StartsWith(image, ImagePrefix) ==> src == PngPrefix + image
  {
    if StartsWith(image, ImagePrefix) then image else PngPrefix + image
  }

  /** Normalising a source again changes nothing, so a prefixed image is never prefixed twice. */
  lemma ImageSourceIdempotent(image: string)
    ensures ImageSource(ImageSource(image)) == ImageSource(image)
  {
  }

  /** An image the page has already turned into a PNG data URL is shown as it is. */
  lemma ImageSourceOfPngUrl(data: string)
    ensures ImageSource(PngPrefix + data) == PngPrefix + data
  {
    assert (PngPrefix + data)[..|ImagePrefix|] == ImagePrefix;
  }

  /** The props a card is rendered with. */
  datatype Card = Card(id: int, plotType: string, image: string)

  /** The Delete button: `onDelete(id)` with the card's own id. */
  function DeleteArgument(card: Card): int {
    card.id
  }
}
