/** `useBackgroundImage`: the hook that fetches and uploads a page's background image override. */
module UseBackgroundImage {
  import opened Wrappers
  import opened Fetch

  const FetchFailedMessage := "Er is een fout opgetreden bij het ophalen van de achtergrondafbeelding."
  const UploadFailedMessage := "Er is een fout opgetreden bij het uploaden van de afbeelding."

  /** The state `useBackgroundImage(pageName)` keeps. */
  class BackgroundImageHook {
    const pageName: string
    var backgroundImage: Option<string>
    var isLoading: bool
    var error: Option<string>

    constructor (pageName: string)
      ensures this.pageName == pageName
      ensures backgroundImage == None && isLoading && error == None
    {
      this.pageName := pageName;
      backgroundImage := None;
      isLoading := true;
      error := None;
    }

    /**
     * The fetch effect after its request: the stored URL on success; a 404
     * means no override (no image, and no error); any other failure sets the
     * fixed message and keeps the image. Loading ends either way.
     */
    method CompleteFetch(outcome: Outcome<string>)
      modifies this
      ensures !isLoading
      ensures outcome.Ok? ==> backgroundImage == Some(outcome.body) && error == None
      ensures outcome.HttpStatus? && outcome.code == 404 ==> backgroundImage == None && error == old(error)
      ensures (outcome.Transport? || (outcome.HttpStatus? && outcome.code != 404)) ==>
                backgroundImage == old(backgroundImage) && error == Some(FetchFailedMessage)
    {
      match outcome {
        case Ok(url) =>
          backgroundImage := Some(url);
          error := None;
        case HttpStatus(code) =>
          if code == 404 {
            backgroundImage := None;
          } else {
            error := Some(FetchFailedMessage);
          }
        case Transport(_) =>
          error := Some(FetchFailedMessage);
      }
      isLoading := false;
    }

    /** `updateBackgroundImage` up to the upload. */
    method BeginUpload()
      modifies this
      ensures isLoading && backgroundImage == old(backgroundImage) && error == old(error)
    {
      isLoading := true;
    }

    /**
     * `updateBackgroundImage` after the upload: success shows the returned URL
     * at once and clears the error; any failure, a 404 included, keeps the
     * image and sets the fixed message. Loading ends either way.
     */
    method CompleteUpload(outcome: Outcome<string>)
      modifies this
      ensures !isLoading
      ensures outcome.Ok? ==> backgroundImage == Some(outcome.body) && error == None
      ensures !outcome.Ok? ==> backgroundImage == old(backgroundImage) && error == Some(UploadFailedMessage)
    {
      if outcome.Ok? {
        backgroundImage := Some(outcome.body);
        error := None;
      } else {
        error := Some(UploadFailedMessage);
      }
      isLoading := false;
    }
  }
}
