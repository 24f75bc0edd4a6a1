/**
 * The service result of src/app/shared/dto/result.ts: a success carrying
 * `data`, or an error carrying `errorData`, each with a status `code`.
 * The admin services leave `code` out, so it is optional here.
 */
module Results {
  import opened Wrappers

  datatype Result<+T, +E> =
    | Success(code: Option<int>, data: T)
    | Failure(code: Option<int>, message: Option<string>, errorData: E)
}
