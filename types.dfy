/** The value types of the studio (types.ts) and the two wrapper datatypes the
    rest of the model uses for absent values and for error returns. */
module Types {

  datatype Option<+T> = None | Some(value: T) {
    function GetOr(default: T): T {
      match this
      case Some(v) => v
      case None => default
    }
  }

  datatype Result<+T, +E> = Success(value: T) | Failure(error: E)

  /** ApiKeyStatus (types.ts:93). */
  datatype ApiKeyStatus = Active | Invalid | Exhausted | Unvalidated

  /** ApiKey (types.ts:95-101); the optional `isSystem` flag is `false` when absent. */
  datatype ApiKey = ApiKey(id: string, value: string, masked: string, status: ApiKeyStatus, isSystem: bool)

  /** A key whose status lets rotation pick it: active or unvalidated. */
  predicate Usable(k: ApiKey) {
    k.status == Active || k.status == Unvalidated
  }

  predicate IsUserKey(k: ApiKey) {
    !k.isSystem
  }

  predicate IsSystemKey(k: ApiKey) {
    k.isSystem
  }

  /** GeneratedImage (types.ts:1-6). */
  datatype GeneratedImage = GeneratedImage(id: string, url: string, prompt: string, isFavorite: bool)

  predicate IsFavorite(img: GeneratedImage) {
    img.isFavorite
  }

  /** Angle and Subject (types.ts:79-80). */
  datatype Angle = Depan | Samping
  datatype Subject = Pria | Wanita | Pasangan

  /** IdentityAnchorFile (types.ts:82-89). */
  datatype IdentityAnchorFile = IdentityAnchorFile(
    id: string, subject: Subject, angle: Angle, base64: string, mimeType: string, previewUrl: string)

  /** One scenario of a photo session: the scene text and its emotion. */
  datatype Scenario = Scenario(scene: string, emotion: string)
}
