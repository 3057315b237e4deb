/** The per-image record of the AiCOCO format (`AiImage`) as far as the
    inference template uses it. */
module Images {
  import opened Outcomes

  /** One `AiImage`: an opaque id, the file name used for matching, an
      ordinal, and the optional category and regression links. The links are
      kept as opaque reference strings; their full schema is not modelled. */
  datatype Image = Image(
    id: string,
    fileName: string,
    index: int,
    categoryIds: Option<seq<string>>,
    regressions: Option<seq<string>>
  )

  /** The record `_set_images` synthesises for a bare file: a fresh id, the
      file itself as the name, index 0 and no links. */
  function Synthesised(id: string, file: string): Image
  {
    Image(id, file, 0, None, None)
  }

  /** An inference category handed to the output formatter. */
  datatype InferCategory = InferCategory(name: string)

  /** An inference regression handed to the output formatter. */
  datatype InferRegression = InferRegression(name: string)
}
