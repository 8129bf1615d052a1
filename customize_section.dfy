/**
 * The customize page's session: the upload pipeline (object URL, background removal,
 * data-URL fallbacks) as a sequence of continuations, the add-to-cart gate with its
 * validation messages, the preview choice, and the commit of a design record to the
 * persistence sink.
 */
module CustomizeSection {
  import opened Wrappers
  import opened Text

  const Price: int := 599

  /** The colour buttons' values. */
  const Palette: seq<string> := ["#0b0b0f", "#e6e6eb", "#1e2a44", "#6d1b1b"]
  /** The size buttons' values. */
  const Sizes: seq<string> := ["S", "M", "L", "XL", "XXL"]

  /** A `string | null` value is truthy when present and non-empty. */
  predicate Present(image: Option<string>) {
    image.Some? && image.value != ""
  }

  /** `isAddToCartDisabled`: `!uploadedImage || !selectedSize || !selectedColor`. */
  predicate AddToCartDisabled(uploaded: Option<string>, size: string, color: string) {
    !Present(uploaded) || size == "" || color == ""
  }

  datatype Guidance = UploadDesign | SelectSize | SelectColor

  /** The validation messages rendered under the button, in page order. */
  function Guidances(uploaded: Option<string>, size: string, color: string): seq<Guidance> {
    (if !Present(uploaded) then [UploadDesign] else [])
    + (if Present(uploaded) && size == "" then [SelectSize] else [])
    + (if Present(uploaded) && size != "" && color == "" then [SelectColor] else [])
  }

  /**
   * At most one message shows, one shows exactly when the button is disabled, and the
   * upload message wins over the size message, which wins over the colour message.
   */
  lemma GuidanceSingleAndPrioritised(uploaded: Option<string>, size: string, color: string)
    ensures |Guidances(uploaded, size, color)| <= 1
    ensures |Guidances(uploaded, size, color)| == 1 <==> AddToCartDisabled(uploaded, size, color)
    ensures !Present(uploaded) ==> Guidances(uploaded, size, color) == [UploadDesign]
    ensures Present(uploaded) && size == "" ==> Guidances(uploaded, size, color) == [SelectSize]
    ensures Present(uploaded) && size != "" && color == "" ==> Guidances(uploaded, size, color) == [SelectColor]
  {
  }

  /** The preview image, `processedImage || uploadedImage`. */
  function Preview(processed: Option<string>, uploaded: Option<string>): Option<string> {
    if Present(processed) then processed else uploaded
  }

  /** The preview shows the matted image when there is one, otherwise the original. */
  lemma PreviewPrefersProcessed(processed: Option<string>, uploaded: Option<string>)
    ensures Present(Preview(processed, uploaded)) <==> Present(processed) || Present(uploaded)
    ensures Present(processed) ==> Preview(processed, uploaded) == processed
    ensures !Present(processed) ==> Preview(processed, uploaded) == uploaded
  {
  }

  /** The record handed to the persistence sink (`DesignData`). */
  datatype DesignData = DesignData(
    id: string,
    uploadedImage: Option<string>,
    processedImage: Option<string>,
    selectedColor: string,
    selectedSize: string,
    price: int,
    timestamp: string,
    status: string)

  /** Everything the customize page keeps in state. */
  datatype Session = Session(
    uploadedImage: Option<string>,
    processedImage: Option<string>,
    isProcessing: bool,
    selectedColor: string,
    selectedSize: string,
    isAddingToCart: bool,
    addToCartSuccess: bool)

  const InitialSession: Session := Session(None, None, false, "#e6e6eb", "", false, false)

  predicate Disabled(s: Session) {
    AddToCartDisabled(s.uploadedImage, s.selectedSize, s.selectedColor)
  }

  /** The selections only ever hold values offered by the buttons. */
  predicate ValidSelections(s: Session) {
    s.selectedColor in Palette && (s.selectedSize == "" || s.selectedSize in Sizes)
  }

  /** The page starts with the button disabled, because no size is chosen. */
  lemma InitiallyDisabled()
    ensures Disabled(InitialSession) && ValidSelections(InitialSession)
    ensures Guidances(InitialSession.uploadedImage, InitialSession.selectedSize, InitialSession.selectedColor) == [UploadDesign]
  {
  }

  /** A colour from the palette is never empty, so the colour message can never show. */
  lemma ColorNeverMissing(s: Session)
    requires ValidSelections(s)
    ensures s.selectedColor != ""
    ensures SelectColor !in Guidances(s.uploadedImage, s.selectedSize, s.selectedColor)
  {
  }

  // ---------------------------------------------------------------------------
  // Upload pipeline, one continuation at a time

  /** Choosing a file: processing starts, the old matted image goes, the object URL (if it could be made) is shown. */
  function BeginUpload(s: Session, objectUrl: Option<string>): Session {
    var t := s.(isProcessing := true, processedImage := None);
    if objectUrl.Some? then t.(uploadedImage := objectUrl) else t
  }

  /** The `finally` after a successful background removal. */
  function RemovalSettled(s: Session): Session {
    s.(isProcessing := false)
  }

  /** The `catch` of a failed background removal: the original is used as the matted image. */
  function RemovalFailed(s: Session, originalUrl: string): Session {
    s.(processedImage := Some(originalUrl), isProcessing := false)
  }

  /** The blob reader's `onloadend`; its result is null when the read fails. */
  function MattedRead(s: Session, result: Option<string>): Session {
    s.(processedImage := result)
  }

  /** The outer `catch`'s file reader: its data URL becomes both images. */
  function FallbackRead(s: Session, result: Option<string>): Session {
    s.(uploadedImage := result, processedImage := result, isProcessing := false)
  }

  /** The ways an upload with a file can run to completion. */
  datatype UploadRun =
    | Matted(originalUrl: string, blobData: Option<string>)
    | Unmatted(originalUrl: string)
    | ReadDirectly(fileData: Option<string>)

  /** The state once every continuation of an upload has run. */
  function Upload(s: Session, run: UploadRun): Session {
    match run
    case Matted(url, data) => MattedRead(RemovalSettled(BeginUpload(s, Some(url))), data)
    case Unmatted(url) => RemovalFailed(BeginUpload(s, Some(url)), url)
    case ReadDirectly(data) => FallbackRead(BeginUpload(s, None), data)
  }

  /** Starting an upload shows the spinner and drops the previous matted image. */
  lemma BeginUploadEffect(s: Session, objectUrl: Option<string>)
    ensures BeginUpload(s, objectUrl).isProcessing && BeginUpload(s, objectUrl).processedImage.None?
    ensures objectUrl.Some? ==> BeginUpload(s, objectUrl).uploadedImage == objectUrl
    ensures objectUrl.None? ==> BeginUpload(s, objectUrl).uploadedImage == s.uploadedImage
  {
  }

  /**
   * Every completed upload clears the spinner and leaves the selections and the commit
   * flags alone; a failed removal shows the original as the matted image; the fallback
   * reader's result becomes both images.
   */
  lemma UploadOutcomes(s: Session, run: UploadRun)
    ensures var t := Upload(s, run);
      && !t.isProcessing
      && t.selectedColor == s.selectedColor && t.selectedSize == s.selectedSize
      && t.isAddingToCart == s.isAddingToCart && t.addToCartSuccess == s.addToCartSuccess
    ensures run.Matted? ==>
      Upload(s, run).uploadedImage == Some(run.originalUrl) && Upload(s, run).processedImage == run.blobData
    ensures run.Unmatted? ==>
      Upload(s, run).uploadedImage == Some(run.originalUrl) && Upload(s, run).processedImage == Some(run.originalUrl)
    ensures run.ReadDirectly? ==>
      Upload(s, run).uploadedImage == run.fileData && Upload(s, run).processedImage == run.fileData
  {
  }

  /** After a failed background removal the preview is the original image. */
  lemma FailedRemovalPreviewsOriginal(s: Session, url: string)
    requires url != ""
    ensures var t := Upload(s, Unmatted(url)); Preview(t.processedImage, t.uploadedImage) == Some(url)
  {
  }

  /** While the background is being removed the preview already shows the original. */
  lemma PreviewDuringRemoval(s: Session, url: string)
    requires url != ""
    ensures var t := BeginUpload(s, Some(url)); t.isProcessing && Preview(t.processedImage, t.uploadedImage) == Some(url)
  {
  }

  // ---------------------------------------------------------------------------
  // Commit

  /** The record built on commit. */
  function Record(s: Session, now: nat, timestamp: string): DesignData {
    DesignData("custom-" + Decimal(now), s.uploadedImage, s.processedImage,
               s.selectedColor, s.selectedSize, Price, timestamp, "pending")
  }

  /** `handleAddToCart` up to the `await`: a closed gate does nothing. */
  function BeginCommit(s: Session): Session {
    if Disabled(s) then s else s.(isAddingToCart := true, addToCartSuccess := false)
  }

  /** `handleAddToCart` after the sink has answered. */
  function EndCommit(s: Session, saved: bool): Session {
    var t := if saved then s.(addToCartSuccess := true) else s;
    t.(isAddingToCart := false)
  }

  /**
   * The record's id is "custom-" followed by the decimal timestamp, which reads back to
   * the timestamp; it carries the current images, colour, size, the price 599 and
   * status "pending".
   */
  lemma RecordContents(s: Session, now: nat, timestamp: string)
    ensures var d := Record(s, now, timestamp);
      && |d.id| > 7 && d.id[..7] == "custom-" && AllDigits(d.id[7..]) && ValueOf(d.id[7..]) == now
      && d.uploadedImage == s.uploadedImage && d.processedImage == s.processedImage
      && d.selectedColor == s.selectedColor && d.selectedSize == s.selectedSize
      && d.price == 599 && d.status == "pending" && d.timestamp == timestamp
  {
    var d := Record(s, now, timestamp);
    assert d.id[7..] == Decimal(now);
    DecimalRoundTrip(now);
  }

  /**
   * A commit leaves the images and selections as they were, whatever the sink says; it
   * always ends with the busy flag down, and with the success flag up exactly when the
   * sink succeeded.
   */
  lemma CommitOutcomes(s: Session, saved: bool)
    requires !Disabled(s)
    ensures var t := EndCommit(BeginCommit(s), saved);
      && t.uploadedImage == s.uploadedImage && t.processedImage == s.processedImage
      && t.selectedColor == s.selectedColor && t.selectedSize == s.selectedSize
      && t.isProcessing == s.isProcessing
      && !t.isAddingToCart
      && t.addToCartSuccess == saved
    ensures BeginCommit(s).isAddingToCart && !BeginCommit(s).addToCartSuccess
  {
  }

  /** A closed gate changes nothing. */
  lemma ClosedGateIsInert(s: Session)
    requires Disabled(s)
    ensures BeginCommit(s) == s
  {
  }

  /** Choosing a colour or a size from the buttons. */
  function ChooseColor(s: Session, c: string): Session { s.(selectedColor := c) }
  function ChooseSize(s: Session, sz: string): Session { s.(selectedSize := sz) }

  /** Every step of the page keeps the selections to values its buttons offer. */
  lemma StepsKeepSelectionsValid(s: Session, c: string, sz: string, url: Option<string>, run: UploadRun,
                                 original: string, read: Option<string>, saved: bool)
    requires ValidSelections(s)
    ensures c in Palette ==> ValidSelections(ChooseColor(s, c))
    ensures sz in Sizes ==> ValidSelections(ChooseSize(s, sz))
    ensures ValidSelections(BeginUpload(s, url)) && ValidSelections(Upload(s, run))
    ensures ValidSelections(RemovalSettled(s)) && ValidSelections(RemovalFailed(s, original))
    ensures ValidSelections(MattedRead(s, read)) && ValidSelections(FallbackRead(s, read))
    ensures ValidSelections(BeginCommit(s)) && ValidSelections(EndCommit(s, saved))
  {
  }

  // ---------------------------------------------------------------------------
  // The component's state as updated by its handlers

  /** Where an upload has got to: which continuation is still to come. */
  datatype Pending = NoUpload | AwaitingRemoval(originalUrl: string) | AwaitingMattedRead | AwaitingFallbackRead

  class Customizer {
    var uploadedImage: Option<string>
    var processedImage: Option<string>
    var isProcessing: bool
    var selectedColor: string
    var selectedSize: string
    var isAddingToCart: bool
    var addToCartSuccess: bool

    function State(): Session
      reads this
    {
      Session(uploadedImage, processedImage, isProcessing, selectedColor, selectedSize,
              isAddingToCart, addToCartSuccess)
    }

    constructor ()
      ensures State() == InitialSession
    {
      uploadedImage := None;
      processedImage := None;
      isProcessing := false;
      selectedColor := "#e6e6eb";
      selectedSize := "";
      isAddingToCart := false;
      addToCartSuccess := false;
    }

    method SelectColor(c: string)
      requires c in Palette
      modifies this
      ensures State() == ChooseColor(old(State()), c)
    {
      selectedColor := c;
    }

    method SelectSize(sz: string)
      requires sz in Sizes
      modifies this
      ensures State() == ChooseSize(old(State()), sz)
    {
      selectedSize := sz;
    }

    /**
     * The synchronous part of `handleImageUpload`. `objectUrl` is what
     * `URL.createObjectURL` gave, or `None` when it threw.
     */
    method ImageSelected(hasFile: bool, objectUrl: Option<string>) returns (next: Pending)
      modifies this
      ensures !hasFile ==> State() == old(State()) && next == NoUpload
      ensures hasFile ==> State() == BeginUpload(old(State()), objectUrl)
      ensures hasFile && objectUrl.Some? ==> next == AwaitingRemoval(objectUrl.value)
      ensures hasFile && objectUrl.None? ==> next == AwaitingFallbackRead
    {
      next := NoUpload;
      if hasFile {
        isProcessing := true;
        processedImage := None;
        if objectUrl.Some? {
          uploadedImage := objectUrl;
          next := AwaitingRemoval(objectUrl.value);
        } else {
          next := AwaitingFallbackRead;
        }
      }
    }

    /** The background removal resolved; its `finally` runs before the blob is read. */
    method RemovalResolved() returns (next: Pending)
      modifies this
      ensures State() == RemovalSettled(old(State())) && next == AwaitingMattedRead
    {
      isProcessing := false;
      next := AwaitingMattedRead;
    }

    /** The background removal threw. */
    method RemovalRejected(originalUrl: string)
      modifies this
      ensures State() == RemovalFailed(old(State()), originalUrl)
    {
      processedImage := Some(originalUrl);
      isProcessing := false;
    }

    /** The reader of the matted blob finished; `result` is `None` when it failed. */
    method MattedReadEnded(result: Option<string>)
      modifies this
      ensures State() == MattedRead(old(State()), result)
    {
      processedImage := result;
    }

    /** The fallback reader of the raw file finished; `result` is `None` when it failed. */
    method FallbackReadEnded(result: Option<string>)
      modifies this
      ensures State() == FallbackRead(old(State()), result)
    {
      uploadedImage := result;
      processedImage := result;
      isProcessing := false;
    }

    /**
     * `handleAddToCart` up to the `await`: the record handed to the sink, or nothing when
     * the gate is closed.
     */
    method AddToCart(now: nat, timestamp: string) returns (submitted: Option<DesignData>)
      modifies this
      ensures State() == BeginCommit(old(State()))
      ensures submitted == if Disabled(old(State())) then None else Some(Record(old(State()), now, timestamp))
    {
      if !Present(uploadedImage) || selectedSize == "" || selectedColor == "" {
        return None;
      }
      isAddingToCart := true;
      addToCartSuccess := false;
      submitted := Some(DesignData("custom-" + Decimal(now), uploadedImage, processedImage,
                                   selectedColor, selectedSize, Price, timestamp, "pending"));
    }

    /** The sink answered: `saved` is false when it rejected. */
    method SinkAnswered(saved: bool)
      modifies this
      ensures State() == EndCommit(old(State()), saved)
    {
      if saved {
        addToCartSuccess := true;
      }
      isAddingToCart := false;
    }
  }
}
