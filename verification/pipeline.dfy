/** `BaseAiCOCOImageInferenceModel.__call__`: the fixed template around the
    model-specific stages. A concrete model supplies the stages as functions;
    the template fixes their order and the checks between them. */
module Pipeline {
  import opened Outcomes
  import opened Images
  import opened Seqs
  import opened Reconcile
  import opened Reorder
  import opened InputModel

  /** What `data_reader` reports as `modified_filenames`: `None`, a
      sequence of file names, or a value that is not a `Sequence`. */
  datatype ReorderReport = NoReorder | Reordered(names: seq<string>) | NotASequence

  /** The triple `data_reader` returns: data, reported order, metadata. */
  datatype ReaderOutput<T> = ReaderOutput(data: T, reorder: ReorderReport, metadata: Option<T>)

  /** The keyword arguments of one call, with an absent `files` or `images`
      as the empty sequence. */
  datatype NetInput = NetInput(files: seq<string>, images: seq<Image>)

  /** A concrete inference model: its stages and its fixed categories and
      regressions. `T` stands for the untyped values passed between stages. */
  datatype InferenceModel<!T> = InferenceModel(
    dataReader: NetInput -> ReaderOutput<T>,
    preprocess: T -> T,
    inference: T -> T,
    postprocess: (T, Option<T>) -> T,
    outputFormatter: (T, seq<Image>, Option<seq<InferCategory>>, Option<seq<InferRegression>>) -> T,
    categories: Option<seq<InferCategory>>,
    regressions: Option<seq<InferRegression>>
  )

  /** What the template relies on but does not define: the `AiImage` schema
      check and the id generator (`freshId(k)` is its k-th id of the call). */
  datatype Env = Env(validImage: Image -> bool, freshId: nat -> string)

  /** A model that overrides only `data_reader` and `output_formatter`:
      `preprocess` and `postprocess` return their input and `inference`
      applies the network. */
  function WithDefaults<T>(
    dataReader: NetInput -> ReaderOutput<T>,
    network: T -> T,
    outputFormatter: (T, seq<Image>, Option<seq<InferCategory>>, Option<seq<InferRegression>>) -> T,
    categories: Option<seq<InferCategory>>,
    regressions: Option<seq<InferRegression>>
  ): InferenceModel<T>
  {
    InferenceModel(dataReader, x => x, network, (out, metadata) => out, outputFormatter, categories, regressions)
  }

  /** The stages of one call, in the order the template runs them. */
  datatype Stage =
    | ResolveImages
    | ValidateImages
    | ReadData
    | CheckReorder
    | ReorderImages
    | Preprocess
    | Infer
    | Postprocess
    | FormatOutput

  const StageOrder: seq<Stage> :=
    [ResolveImages, ValidateImages, ReadData, CheckReorder, ReorderImages, Preprocess, Infer, Postprocess, FormatOutput]

  /** The stage that raises each error of a call; the input validator's
      error is raised before the template runs. */
  function StageOf(e: Error): Option<Stage>
  {
    match e
    case FileNotMatched(_) => Some(ResolveImages)
    case UnsupportedCounts(_, _) => Some(ResolveImages)
    case InvalidImage(_) => Some(ValidateImages)
    case ReorderNotSequence => Some(CheckReorder)
    case ReorderCountMismatch(_, _) => Some(ReorderImages)
    case NameNotInFiles(_) => Some(ReorderImages)
    case ReorderIndexMismatch => Some(ReorderImages)
    case ImageIndexOutOfRange(_, _) => Some(ReorderImages)
    case MissingImagesAndFiles => None
  }

  /** The schema check of every image: the position of the first record the
      `AiImage` schema rejects, if any. */
  function FirstInvalid(images: seq<Image>, validImage: Image -> bool): (r: Option<nat>)
    ensures r.None? <==> forall i :: 0 <= i < |images| ==> validImage(images[i])
    ensures r.Some? ==> r.value < |images| && !validImage(images[r.value])
    ensures r.Some? ==> forall i :: 0 <= i < r.value ==> validImage(images[i])
  {
    FirstWhere(images, image => !validImage(image))
  }

  /** The type check on `modified_filenames`: `None` and sequences pass,
      anything else raises `TypeError`. */
  function CheckedNames(report: ReorderReport): (r: Result<Option<seq<string>>>)
    ensures r.Err? <==> report.NotASequence?
    ensures report.NoReorder? ==> r == Ok(None)
    ensures report.Reordered? ==> r == Ok(Some(report.names))
  {
    match report
    case NoReorder => Ok(None)
    case Reordered(names) => Ok(Some(names))
    case NotASequence => Err(ReorderNotSequence)
  }

  /** The value a call returns: the formatter's output, with the image list
      it was given and whether reconciliation warned. */
  datatype Response<T> = Response(output: T, images: seq<Image>, warned: bool)

  /** A call's result together with the stages it entered, in order. */
  datatype Outcome<T> = Outcome(trace: seq<Stage>, result: Result<Response<T>>)

  /** `__call__(**net_input)`. */
  function Call<T>(m: InferenceModel<T>, env: Env, input: NetInput): (o: Outcome<T>)
    // the stages entered are always an initial run of the fixed order
    ensures 0 < |o.trace| && o.trace <= StageOrder
    // a call succeeds exactly when it runs every stage
    ensures o.result.Ok? <==> o.trace == StageOrder
    // a failure comes from the last stage entered, and nothing runs after it
    ensures o.result.Err? ==> StageOf(o.result.error) == Some(o.trace[|o.trace| - 1])
  {
    match SetImages(input.files, input.images, env.freshId)
    case Err(e) => Outcome([ResolveImages], Err(e))
    case Ok(resolved) =>
      match FirstInvalid(resolved.images, env.validImage)
      case Some(k) => Outcome([ResolveImages, ValidateImages], Err(InvalidImage(k)))
      case None =>
        var read := m.dataReader(input);
        match CheckedNames(read.reorder)
        case Err(e) => Outcome([ResolveImages, ValidateImages, ReadData, CheckReorder], Err(e))
        case Ok(names) =>
          match UpdateImages(resolved.images, input.files, names)
          case Err(e) => Outcome([ResolveImages, ValidateImages, ReadData, CheckReorder, ReorderImages], Err(e))
          case Ok(images) =>
            var x := m.preprocess(read.data);
            var out := m.inference(x);
            var result := m.postprocess(out, read.metadata);
            Outcome(StageOrder, Ok(Response(m.outputFormatter(result, images, m.categories, m.regressions),
                                            images, resolved.warned)))
  }

  /** The data reader runs only once every reconciled record passed the
      `AiImage` schema; a rejected record stops the call before any I/O. */
  lemma ReaderRunsAfterValidation<T>(m: InferenceModel<T>, env: Env, input: NetInput)
    requires ReadData in Call(m, env, input).trace
    ensures SetImages(input.files, input.images, env.freshId).Ok?
    ensures forall i :: 0 <= i < |SetImages(input.files, input.images, env.freshId).value.images| ==>
              env.validImage(SetImages(input.files, input.images, env.freshId).value.images[i])
  {
  }

  /** The formatter receives the records as reordered after the data
      reader, the output of the business stages run in order, and the
      model's fixed categories and regressions. */
  lemma FormatterGetsReorderedImages<T>(m: InferenceModel<T>, env: Env, input: NetInput)
    requires Call(m, env, input).result.Ok?
    ensures
      var response := Call(m, env, input).result.value;
      var read := m.dataReader(input);
      && !read.reorder.NotASequence?
      && SetImages(input.files, input.images, env.freshId).Ok?
      && UpdateImages(SetImages(input.files, input.images, env.freshId).value.images,
                      input.files, CheckedNames(read.reorder).value)
         == Ok(response.images)
      && response.output
         == m.outputFormatter(m.postprocess(m.inference(m.preprocess(read.data)), read.metadata),
                              response.images, m.categories, m.regressions)
  {
  }

  /** The keyword arguments the validated request data becomes. */
  function NetInputOf(data: InputData): NetInput
  {
    NetInput(Present(data.files), Present(data.images))
  }

  /** Data the input validator accepts never reaches the "not specified"
      warning, and a successful call on it formats a non-empty image list. */
  lemma AcceptedInputHasImages<T>(m: InferenceModel<T>, env: Env, data: InputData)
    requires CheckImagesFiles(data).Ok?
    ensures SetImages(NetInputOf(data).files, NetInputOf(data).images, env.freshId).Ok? ==>
              var resolved := SetImages(NetInputOf(data).files, NetInputOf(data).images, env.freshId).value;
              !resolved.warned && |resolved.images| > 0
    ensures Call(m, env, NetInputOf(data)).result.Ok? ==>
              !Call(m, env, NetInputOf(data)).result.value.warned
              && |Call(m, env, NetInputOf(data)).result.value.images| > 0
  {
    var input := NetInputOf(data);
    if SetImages(input.files, input.images, env.freshId).Ok? {
      WarnsOnlyWithoutInput(input.files, input.images, env.freshId);
      var o := Call(m, env, input);
      if o.result.Ok? {
        ImagesLengthStable(m, env, input);
      }
    }
  }

  /** Once reconciled, the image list keeps its length through reordering:
      the formatter gets exactly as many records as reconciliation produced. */
  lemma ImagesLengthStable<T>(m: InferenceModel<T>, env: Env, input: NetInput)
    requires Call(m, env, input).result.Ok?
    ensures |Call(m, env, input).result.value.images| == |SetImages(input.files, input.images, env.freshId).value.images|
  {
  }

  /** A call never fails on a record position past the end of the list: the
      reordering runs only on lists reconciliation built to cover the files. */
  lemma CallNeverIndexesPastImages<T>(m: InferenceModel<T>, env: Env, input: NetInput)
    ensures Call(m, env, input).result.Err? ==> !Call(m, env, input).result.error.ImageIndexOutOfRange?
  {
    match SetImages(input.files, input.images, env.freshId)
    case Err(_) =>
    case Ok(resolved) =>
      ReconciledCoversFiles(input.files, input.images, env.freshId);
      var read := m.dataReader(input);
      if CheckedNames(read.reorder).Ok? {
        InRangeWhenFilesFit(resolved.images, input.files, CheckedNames(read.reorder).value);
      }
  }

  /** With the default `preprocess`, `inference` and `postprocess`, the
      formatter receives the network applied to exactly what the data reader
      read. */
  lemma DefaultStagesPassDataThrough<T>(
    dataReader: NetInput -> ReaderOutput<T>,
    network: T -> T,
    outputFormatter: (T, seq<Image>, Option<seq<InferCategory>>, Option<seq<InferRegression>>) -> T,
    categories: Option<seq<InferCategory>>,
    regressions: Option<seq<InferRegression>>,
    env: Env,
    input: NetInput)
    requires Call(WithDefaults(dataReader, network, outputFormatter, categories, regressions), env, input).result.Ok?
    ensures
      var response := Call(WithDefaults(dataReader, network, outputFormatter, categories, regressions), env, input).result.value;
      response.output == outputFormatter(network(dataReader(input).data), response.images, categories, regressions)
  {
  }
}
