/** Failure-compatible wrappers shared by the whole model, and the errors the
    image inference template raises. A Python `raise` becomes an `Err`; a
    normal return becomes an `Ok`. */
module Outcomes {

  /** Python's `Optional[...]`: `None` or a present value. */
  datatype Option<+T> = None | Some(value: T)

  /** The Python exception class that a model error stands for. */
  datatype ExceptionClass =
    | BareException
    | ValueError
    | TypeError
    | ValidationError
    | IndexError
    | AssertionError

  /** Every way the modelled core can abort. */
  datatype Error =
      /** `_set_images`: a file that no image record's `file_name` matches. */
    | FileNotMatched(file: string)
      /** `_set_images`: a count of files and images it does not support. */
    | UnsupportedCounts(files: nat, images: nat)
      /** `__call__`: the image at this position fails the `AiImage` schema. */
    | InvalidImage(position: nat)
      /** `__call__`: `modified_filenames` is present but not a `Sequence`. */
    | ReorderNotSequence
      /** `_update_images`: counts of images and modified filenames differ. */
    | ReorderCountMismatch(images: nat, names: nat)
      /** `_update_images`: `files.index(name)` found no such file. */
    | NameNotInFiles(name: string)
      /** `_update_images`: the second, index-count check. */
    | ReorderIndexMismatch
      /** `_update_images`: `self.images[i]` with `i` past the end. */
    | ImageIndexOutOfRange(index: nat, images: nat)
      /** Input data model: neither `images` nor `files` given. */
    | MissingImagesAndFiles

  /** The class of the exception Python raises for each error. */
  function ClassOf(e: Error): ExceptionClass
  {
    match e
    case FileNotMatched(_) => BareException
    case UnsupportedCounts(_, _) => ValueError
    case InvalidImage(_) => ValidationError
    case ReorderNotSequence => TypeError
    case ReorderCountMismatch(_, _) => ValueError
    case NameNotInFiles(_) => ValueError
    case ReorderIndexMismatch => ValueError
    case ImageIndexOutOfRange(_, _) => IndexError
    case MissingImagesAndFiles => AssertionError
  }

  /** Either the value an operation returns or the error it raises. */
  datatype Result<+T> = Ok(value: T) | Err(error: Error) {

    predicate IsFailure() {
      Err?
    }

    function PropagateFailure<U>(): Result<U>
      requires Err?
    {
      Err(error)
    }

    function Extract(): T
      requires Ok?
    {
      value
    }
  }
}
