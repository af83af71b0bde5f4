/** Small value types shared by every module. */
module Common {

  datatype Option<+T> = None | Some(value: T)

  /** What a call that may raise did: returned a value, or raised an exception with this message.
      Every external call (speech-to-text, chat completion, text-to-speech, vision) is an
      argument of this type, so each handler's behaviour is a function of its inputs. */
  datatype Outcome<+T> = Ok(value: T) | Fail(error: string)

  newtype byte = b: int | 0 <= b < 256

  /** Raw audio or image payloads. */
  type Bytes = seq<byte>
}
