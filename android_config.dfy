/** Android-mode switches read from the process environment, and the ADB settings. */
module AndroidConfig {
  import opened Values

  /** `isAndroidMode()`: exact, case-sensitive comparisons. */
  function IsAndroidMode(env: Env): (r: bool)
    ensures r <==> ("ANDROID" in env && env["ANDROID"] == "true") || ("PLATFORM" in env && env["PLATFORM"] == "android")
  {
    EnvGet(env, "ANDROID") == Str("true") || EnvGet(env, "PLATFORM") == Str("android")
  }

  /** `env.NAME || fallback` for a string variable. */
  function EnvOr(env: Env, name: string, fallback: string): (r: string)
    ensures name in env && env[name] != "" ==> r == env[name]
    ensures !(name in env && env[name] != "") ==> r == fallback
  {
    var v := Or(EnvGet(env, name), Str(fallback));
    v.s
  }

  /** `getAndroidDevice()` */
  function GetAndroidDevice(env: Env): (r: string)
    ensures r != ""
    ensures "ANDROID_DEVICE" in env && env["ANDROID_DEVICE"] != "" ==> r == env["ANDROID_DEVICE"]
    ensures !("ANDROID_DEVICE" in env && env["ANDROID_DEVICE"] != "") ==> r == "android"
  {
    EnvOr(env, "ANDROID_DEVICE", "android")
  }

  /** `AndroidConfig.adb` */
  datatype AdbSettings = AdbSettings(port: nat, deviceSerial: string)

  const DefaultAdbPort: nat := 5037

  /** `AndroidConfig.browser.packageName` */
  const ChromePackage := "com.android.chrome"

  /** `AndroidConfig.adb`, evaluated against the environment at load time. */
  function Adb(env: Env): (r: AdbSettings)
    ensures r.port == 5037
    ensures "ANDROID_DEVICE_SERIAL" in env ==> r.deviceSerial == env["ANDROID_DEVICE_SERIAL"]
    ensures "ANDROID_DEVICE_SERIAL" !in env ==> r.deviceSerial == ""
  {
    AdbSettings(DefaultAdbPort, EnvOr(env, "ANDROID_DEVICE_SERIAL", ""))
  }

  /** Any other spelling of the flags (say `ANDROID=TRUE`) leaves Android mode off. */
  lemma AndroidModeIsCaseSensitive()
    ensures !IsAndroidMode(map["ANDROID" := "TRUE", "PLATFORM" := "Android"])
    ensures IsAndroidMode(map["ANDROID" := "true"]) && IsAndroidMode(map["PLATFORM" := "android"])
  {
  }
}
