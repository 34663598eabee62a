/** The microphone permission gate of the audio button (AudioButton.js, `_checkPermission`).

    Only Android asks the user; every other host platform is treated as having
    granted the microphone. The Android permission provider has answered in two
    shapes over its history, a plain boolean and a result code, and the component
    accepts both.
 */
module Permission {

  /** The host platform, as `Platform.OS` reports it. Android and iOS are the two
      the component distinguishes; any other value behaves like iOS for the
      permission gate and like neither for the recording-finished callback. */
  datatype Platform = Android | Ios | OtherPlatform

  /** What the Android permission request resolves to: a boolean (older hosts) or
      a result code such as "granted", "denied" or "never_ask_again". */
  datatype RequestResult = Flag(b: bool) | Code(code: string)

  /** The value of `PermissionsAndroid.RESULTS.GRANTED`. */
  const GrantedCode: string := "granted"

  /** Whether recording is permitted. On a platform other than Android no request
      is made and the answer is yes, whatever `result` holds. */
  function CheckPermission(platform: Platform, result: RequestResult): (granted: bool)
    ensures platform != Android ==> granted
    ensures platform == Android ==> (granted <==> result == Flag(true) || result == Code(GrantedCode))
  {
    match platform
    case Android =>
      (match result
       case Flag(b) => b
       case Code(c) => c == GrantedCode)
    case _ => true
  }
}
