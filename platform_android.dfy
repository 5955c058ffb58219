/**
 * `platformIsEmulator` on Android: one boolean expression over the device
 * strings of `android.os.Build`, which become the fields of `BuildInfo`.
 * Each disjunct of the expression is a named predicate so that the lemmas
 * can speak of it.
 */
module PlatformAndroid {
  import opened KotlinStrings

  /** The `Build.*` values the predicate reads. */
  datatype BuildInfo = BuildInfo(
    manufacturer: string,
    brand: string,
    fingerprint: string,
    product: string,
    model: string,
    board: string,
    host: string,
    device: string)

  /** The Android SDK emulator images named `sdk_gphone_…`. */
  predicate SdkGphone(b: BuildInfo)
  {
    StartsWith(b.fingerprint, "google/sdk_gphone_")
    && EndsWith(b.fingerprint, ":user/release-keys")
    && StartsWith(b.product, "sdk_gphone_")
    && StartsWith(b.model, "sdk_gphone_")
  }

  /** The 64-bit Android SDK emulator images named `sdk_gphone64_…`. */
  predicate SdkGphone64(b: BuildInfo)
  {
    StartsWith(b.fingerprint, "google/sdk_gphone64_")
    && (EndsWith(b.fingerprint, ":userdebug/dev-keys") || EndsWith(b.fingerprint, ":user/release-keys"))
    && StartsWith(b.product, "sdk_gphone64_")
    && StartsWith(b.model, "sdk_gphone64_")
  }

  /** The first clause: a Google-branded SDK emulator image. */
  predicate AndroidSdkEmulator(b: BuildInfo)
  {
    b.manufacturer == "Google" && b.brand == "google" && (SdkGphone(b) || SdkGphone64(b))
  }

  /** A generic or unknown build fingerprint. */
  predicate GenericFingerprint(b: BuildInfo)
  {
    StartsWith(b.fingerprint, "generic") || StartsWith(b.fingerprint, "unknown")
  }

  /** A model name that emulators report. */
  predicate EmulatorModel(b: BuildInfo)
  {
    Contains(b.model, "google_sdk") || Contains(b.model, "Emulator") || Contains(b.model, "Android SDK built for x86")
  }

  /** BlueStacks: the Qualcomm reference board on anything but a Xiaomi device. */
  predicate BlueStacksBoard(b: BuildInfo)
  {
    "QC_Reference_Phone" == b.board && !EqualsIgnoreCase("Xiaomi", b.manufacturer)
  }

  /** MSI App Player: generic brand and generic device. */
  predicate GenericBrandAndDevice(b: BuildInfo)
  {
    StartsWith(b.brand, "generic") && StartsWith(b.device, "generic")
  }

  /** `platformIsEmulator` */
  predicate IsEmulator(b: BuildInfo)
  {
    AndroidSdkEmulator(b)
    || GenericFingerprint(b)
    || EmulatorModel(b)
    || BlueStacksBoard(b)
    || Contains(b.manufacturer, "Genymotion")
    || StartsWith(b.host, "Build")
    || GenericBrandAndDevice(b)
    || b.product == "google_sdk"
  }

  /** Each single-field disjunct decides the predicate on its own. */
  lemma EachMarkerSuffices(b: BuildInfo)
    ensures StartsWith(b.fingerprint, "generic") ==> IsEmulator(b)
    ensures StartsWith(b.fingerprint, "unknown") ==> IsEmulator(b)
    ensures Contains(b.model, "google_sdk") ==> IsEmulator(b)
    ensures Contains(b.model, "Emulator") ==> IsEmulator(b)
    ensures Contains(b.model, "Android SDK built for x86") ==> IsEmulator(b)
    ensures Contains(b.manufacturer, "Genymotion") ==> IsEmulator(b)
    ensures StartsWith(b.host, "Build") ==> IsEmulator(b)
    ensures b.product == "google_sdk" ==> IsEmulator(b)
  {
  }

  /** None of the disjuncts after the first holds. */
  predicate NoOtherMarker(b: BuildInfo)
  {
    !GenericFingerprint(b) && !EmulatorModel(b) && !BlueStacksBoard(b)
    && !Contains(b.manufacturer, "Genymotion") && !StartsWith(b.host, "Build")
    && !GenericBrandAndDevice(b) && b.product != "google_sdk"
  }

  /**
   * When nothing else marks the device, the SDK-image clause decides, and it
   * fails as soon as any one of its parts is missing.
   */
  lemma SdkClauseNeedsEveryPart(b: BuildInfo)
    requires NoOtherMarker(b)
    ensures IsEmulator(b) <==> AndroidSdkEmulator(b)
    ensures b.manufacturer != "Google" ==> !IsEmulator(b)
    ensures b.brand != "google" ==> !IsEmulator(b)
    ensures !StartsWith(b.fingerprint, "google/sdk_gphone_") && !StartsWith(b.fingerprint, "google/sdk_gphone64_")
            ==> !IsEmulator(b)
    ensures !EndsWith(b.fingerprint, ":user/release-keys") && !EndsWith(b.fingerprint, ":userdebug/dev-keys")
            ==> !IsEmulator(b)
    ensures !StartsWith(b.product, "sdk_gphone_") && !StartsWith(b.product, "sdk_gphone64_") ==> !IsEmulator(b)
    ensures !StartsWith(b.model, "sdk_gphone_") && !StartsWith(b.model, "sdk_gphone64_") ==> !IsEmulator(b)
    ensures !StartsWith(b.fingerprint, "google/sdk_gphone64_") && !EndsWith(b.fingerprint, ":user/release-keys")
            ==> !IsEmulator(b)
    ensures StartsWith(b.fingerprint, "google/sdk_gphone_") && !StartsWith(b.product, "sdk_gphone_") ==> !IsEmulator(b)
    ensures StartsWith(b.fingerprint, "google/sdk_gphone_") && !StartsWith(b.model, "sdk_gphone_") ==> !IsEmulator(b)
    ensures StartsWith(b.fingerprint, "google/sdk_gphone64_") && !StartsWith(b.product, "sdk_gphone64_") ==> !IsEmulator(b)
    ensures StartsWith(b.fingerprint, "google/sdk_gphone64_") && !StartsWith(b.model, "sdk_gphone64_") ==> !IsEmulator(b)
  {
    // the two fingerprint prefixes differ at index 17, so no fingerprint has both
    if StartsWith(b.fingerprint, "google/sdk_gphone_") {
      assert b.fingerprint[17] == '_';
    }
    if StartsWith(b.fingerprint, "google/sdk_gphone64_") {
      assert b.fingerprint[17] == '6';
    }
  }

  /** A 32-bit SDK image with release keys is detected, whatever its other fields. */
  lemma SdkGphoneReleaseImageDetected(b: BuildInfo, build: string, arch: string)
    requires b.manufacturer == "Google" && b.brand == "google"
    requires b.fingerprint == "google/sdk_gphone_" + build + ":user/release-keys"
    requires b.product == "sdk_gphone_" + arch && b.model == "sdk_gphone_" + arch
    ensures SdkGphone(b) && AndroidSdkEmulator(b) && IsEmulator(b)
  {
  }

  /** The 64-bit SDK images are detected with development keys as well. */
  lemma SdkGphone64DevImageDetected(b: BuildInfo, build: string, arch: string)
    requires b.manufacturer == "Google" && b.brand == "google"
    requires b.fingerprint == "google/sdk_gphone64_" + build + ":userdebug/dev-keys"
    requires b.product == "sdk_gphone64_" + arch && b.model == "sdk_gphone64_" + arch
    ensures SdkGphone64(b) && AndroidSdkEmulator(b) && IsEmulator(b)
  {
  }

  /** The 32-bit SDK images are not: for them only release keys count. */
  lemma SdkGphoneDevImageNotSdkClause(b: BuildInfo, build: string)
    requires b.fingerprint == "google/sdk_gphone_" + build + ":userdebug/dev-keys"
    ensures !AndroidSdkEmulator(b)
  {
    var fp := b.fingerprint;
    assert fp[|fp| - 18] == 'u' != ":user/release-keys"[0];
    assert fp[17] == '_' != "google/sdk_gphone64_"[17];
  }

  /** On the reference board the verdict turns on the manufacturer, compared ignoring case. */
  lemma BlueStacksBoardUnlessXiaomi(b: BuildInfo)
    requires b.board == "QC_Reference_Phone"
    ensures BlueStacksBoard(b) <==> !EqualsIgnoreCase("Xiaomi", b.manufacturer)
    ensures b.manufacturer == "XIAOMI" ==> !BlueStacksBoard(b)
    ensures b.manufacturer == "Samsung" ==> BlueStacksBoard(b) && IsEmulator(b)
  {
  }

  /** Generic brand and generic device together mark an emulator; either one alone does not meet that clause. */
  lemma GenericBrandAndDeviceNeedsBoth(b: BuildInfo)
    ensures StartsWith(b.brand, "generic") && StartsWith(b.device, "generic") ==> IsEmulator(b)
    ensures !StartsWith(b.brand, "generic") || !StartsWith(b.device, "generic") ==> !GenericBrandAndDevice(b)
  {
  }

  /** The Android SDK emulator's own device name does not trigger the brand-and-device clause. */
  lemma SdkDeviceAloneNotGeneric(b: BuildInfo)
    requires b.brand == "google" && b.device == "generic_x86_arm"
    ensures StartsWith(b.device, "generic") && !GenericBrandAndDevice(b)
  {
  }

  /** The model name of an SDK image holds none of the emulator model substrings. */
  lemma SdkModelHasNoMarker(model: string)
    requires model == "sdk_gphone_x86"
    ensures !Contains(model, "google_sdk") && !Contains(model, "Emulator")
    ensures !Contains(model, "Android SDK built for x86")
  {
    MissingCharNotContained(model, "google_sdk", 4);
    MissingCharNotContained(model, "Emulator", 0);
    MissingCharNotContained(model, "Android SDK built for x86", 0);
  }
}
