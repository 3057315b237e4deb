/** `BaseAiCOCOImageInputDataModel`: the request body of an image inference
    call, and its `check_images_files` validator. */
module InputModel {
  import opened Outcomes
  import opened Images

  /** The raw request data: `images` and `files` may each be absent. */
  datatype InputData = InputData(images: Option<seq<Image>>, files: Option<seq<string>>)

  /** Python truthiness of an optional sequence: present and non-empty. */
  predicate Truthy<X>(o: Option<seq<X>>)
  {
    o.Some? && |o.value| > 0
  }

  /** `check_images_files`: `assert images or files`, passing the data
      through unchanged when it holds. */
  function CheckImagesFiles(data: InputData): (r: Result<InputData>)
    ensures r.Ok? <==> (data.images.Some? && |data.images.value| > 0) || (data.files.Some? && |data.files.value| > 0)
    ensures r.Ok? ==> r.value == data
    ensures r.Err? ==> r.error == MissingImagesAndFiles && ClassOf(r.error) == AssertionError
  {
    if Truthy(data.images) || Truthy(data.files) then Ok(data)
    else Err(MissingImagesAndFiles)
  }

  /** An absent field reaches the inference call as the empty sequence. */
  function Present<X>(o: Option<seq<X>>): (s: seq<X>)
    ensures |s| > 0 <==> Truthy(o)
  {
    match o
    case None => []
    case Some(xs) => xs
  }
}
