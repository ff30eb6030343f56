/**
 * What a mutation dialog hands to `dialogRef.close`: a status and a message.
 * The message is whatever value the dialog forwards, which is not always text.
 */
module DialogOutcome {
  import opened ProductService

  datatype Status = Ok | Error | Cancel

  /**
   * The `message` of a close result: a string, the whole `{ message }` body of
   * a delete reply, or the whole error value the service delivered.
   */
  datatype Message = Text(text: string) | ResponseBody(message: string) | ErrorValue(error: HttpError)

  datatype DialogResult = DialogResult(status: Status, message: Message)
}
