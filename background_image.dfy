/** `<BackgroundImage>`: the container drawn around a page's content. */
module BackgroundImage {
  import opened Wrappers
  import opened JsString

  datatype Style = Style(backgroundImage: string, backgroundSize: string, backgroundPosition: string, backgroundRepeat: string)

  /** The `div` rendered: its class and its inline style, if any. */
  datatype Container = Container(className: string, style: Option<Style>)

  /** `${backgroundImage || fallbackImage}`: `undefined` prints as such. */
  function EffectiveUrl(backgroundImage: Option<string>, fallbackImage: Option<string>): string {
    if Truthy(backgroundImage) then backgroundImage.value
    else if fallbackImage.Some? then fallbackImage.value
    else "undefined"
  }

  /** The container for the hook's image and loading flag and the component's props. */
  function Render(backgroundImage: Option<string>, isLoading: bool, className: Option<string>, fallbackImage: Option<string>): Container {
    var style := Style("url(" + EffectiveUrl(backgroundImage, fallbackImage) + ")", "cover", "center", "no-repeat");
    Container("relative " + (if className.Some? then className.value else ""),
              if Truthy(backgroundImage) || Truthy(fallbackImage) then Some(style) else None)
  }

  /** A non-empty override is drawn whatever the fallback. */
  lemma OverrideWins(image: string, isLoading: bool, className: Option<string>, fallbackImage: Option<string>)
    requires image != ""
    ensures Render(Some(image), isLoading, className, fallbackImage).style ==
            Some(Style("url(" + image + ")", "cover", "center", "no-repeat"))
  {
  }

  /** With no override, or an empty one, a non-empty fallback is drawn. */
  lemma FallbackWhenNoOverride(backgroundImage: Option<string>, isLoading: bool, className: Option<string>, fallback: string)
    requires !Truthy(backgroundImage) && fallback != ""
    ensures Render(backgroundImage, isLoading, className, Some(fallback)).style ==
            Some(Style("url(" + fallback + ")", "cover", "center", "no-repeat"))
  {
  }

  /** No inline style at all exactly when neither image is a non-empty string. */
  lemma NoStyleIffNoImage(backgroundImage: Option<string>, isLoading: bool, className: Option<string>, fallbackImage: Option<string>)
    ensures Render(backgroundImage, isLoading, className, fallbackImage).style.None? <==>
            !Truthy(backgroundImage) && !Truthy(fallbackImage)
  {
  }

  /** When a style is applied, the URL it draws is the non-empty one of the two images, never `undefined` or empty. */
  lemma StyledUrlIsAnImage(backgroundImage: Option<string>, isLoading: bool, className: Option<string>, fallbackImage: Option<string>)
    ensures var c := Render(backgroundImage, isLoading, className, fallbackImage);
            c.style.Some? ==>
              (c.style.value.backgroundImage ==
               "url(" + (if Truthy(backgroundImage) then backgroundImage.value else fallbackImage.value) + ")")
    ensures Render(backgroundImage, isLoading, className, fallbackImage).style.Some? ==>
              EffectiveUrl(backgroundImage, fallbackImage) != "" && (Truthy(backgroundImage) || fallbackImage.Some?)
  {
  }

  /** The loading flag changes nothing, and the class is always "relative " followed by the given class (empty by default). */
  lemma LoadingIgnoredAndClassFixed(backgroundImage: Option<string>, className: Option<string>, fallbackImage: Option<string>)
    ensures Render(backgroundImage, true, className, fallbackImage) == Render(backgroundImage, false, className, fallbackImage)
    ensures Render(backgroundImage, true, className, fallbackImage).className ==
            "relative " + (if className.Some? then className.value else "")
  {
  }
}
