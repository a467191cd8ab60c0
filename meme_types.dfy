/** The records and enumerations the meme generator passes between its parts
    (types.ts), and the shapes used here for its exceptions and its nullable
    values. */
module MemeTypes {

  datatype Option<+T> = None | Some(value: T)

  /** A value, or the exception that was thrown instead of producing it. */
  datatype Result<+T> = Ok(value: T) | Err(error: Failure)

  /** A thrown JavaScript value, seen through the two properties the program
      reads from it: `name` and `message`, each "" when the value has none. */
  datatype Failure = Failure(name: string, message: string)

  datatype GenerationStatus = Idle | Uploading | Generating | Success | Error

  datatype MemeType = Photo

  /** One generated meme as the history keeps it. */
  datatype MemeItem = MemeItem(
    id: string,
    kind: MemeType,
    url: string,
    thumbnailUrl: Option<string>,
    prompt: string,
    createdAt: int)

  datatype MemeCaptions = MemeCaptions(topText: string, bottomText: string)
}
