/** The entities the routes exchange with the post store (the `Post`
    record of types/index.ts). Timestamps are the ISO-8601 text that
    `toISOString` gives. */
module BlogTypes {

  datatype PostStatus = Draft | Published

  /** The value stored in the `status` column. */
  function StatusName(s: PostStatus): string {
    match s
    case Draft => "DRAFT"
    case Published => "PUBLISHED"
  }

  type Timestamp = string

  /** Any failure of the store; the routes answer it with a 500. */
  datatype StoreError = StoreError

  /** The body of every error answer: `{ error: message }` with a status. */
  datatype ErrorBody = ErrorBody(status: int, error: string)

  const InternalServerError: ErrorBody := ErrorBody(500, "Internal server error")
}
