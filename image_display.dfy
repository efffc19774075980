/** The result panel: which of the spinner, the error text, the generated
    image (with its download link) and the placeholder are rendered for the
    three props `generatedImage`, `isLoading` and `error`. */
module ImageDisplay {
  import opened JsText

  const DOWNLOAD_FILENAME := Lit("one-click-image.png")

  /** `<a href={generatedImage} download="one-click-image.png">`. */
  datatype DownloadLink = DownloadLink(href: Text, filename: Text)

  /** What the panel renders. The image entry, when present, is the shown
      image's source together with its download link. */
  datatype View = View(spinner: bool, errorText: Option<Text>, image: Option<DownloadLink>, placeholder: bool)

  /** The four conditional children of the panel, each guarded by
      JavaScript truthiness of its props. */
  function Render(generatedImage: Option<Text>, isLoading: bool, error: Option<Text>): (v: View)
    ensures v.spinner <==> isLoading
    ensures v.errorText.Some? <==> Truthy(error)
    ensures v.errorText.Some? ==> v.errorText == error
    ensures v.image.Some? <==> !isLoading && !Truthy(error) && Truthy(generatedImage)
    ensures v.image.Some? ==>
      v.image.value.href == generatedImage.value && v.image.value.filename == DOWNLOAD_FILENAME
    ensures v.placeholder <==> !isLoading && !Truthy(error) && !Truthy(generatedImage)
  {
    var showImage := !isLoading && !Truthy(error) && Truthy(generatedImage);
    View(
      isLoading,
      if Truthy(error) then error else None,
      if showImage then Some(DownloadLink(generatedImage.value, DOWNLOAD_FILENAME)) else None,
      !isLoading && !Truthy(error) && !Truthy(generatedImage))
  }

  /** The panel is never empty, and the image and the placeholder are never
      both shown; outside loading and error, exactly one of them is. */
  lemma RenderShowsSomething(generatedImage: Option<Text>, isLoading: bool, error: Option<Text>)
    ensures var v := Render(generatedImage, isLoading, error);
      (v.spinner || v.errorText.Some? || v.image.Some? || v.placeholder)
      && !(v.image.Some? && v.placeholder)
      && (!isLoading && !Truthy(error) ==> (v.image.Some? <==> !v.placeholder))
  {
  }

  /** The generated image is shown only alone: never beside the spinner or
      an error text. */
  lemma ImageShownAlone(generatedImage: Option<Text>, isLoading: bool, error: Option<Text>)
    ensures var v := Render(generatedImage, isLoading, error);
      v.image.Some? ==> !v.spinner && v.errorText.None? && !v.placeholder
  {
  }
}
