/**
 * The navigation destinations of the test app: each has a route string and
 * an optional title (a string resource), and `AppDestinations` lists them
 * in the order used for lookup.
 */
module Destinations {
  import opened Wrappers

  /** A Compose string resource, identified by its key. */
  datatype StringResource = StringResource(key: string)

  datatype Destination =
    | StartDestination
    | AboutDestination
    | CameraDestination
    | FaceDetectionDestination
    | BarcodeScanningDestination
    | SelfieCheckScreenDestination
    | FaceMatchScreenDestination
  {
    function Route(): string
    {
      match this
      case StartDestination => "start"
      case AboutDestination => "about"
      case CameraDestination => "camera"
      case FaceDetectionDestination => "face_detection"
      case BarcodeScanningDestination => "BarcodeScanning"
      case SelfieCheckScreenDestination => "SelfieCheck"
      case FaceMatchScreenDestination => "FaceMatch"
    }

    function Title(): Option<StringResource>
    {
      match this
      case StartDestination => None
      case AboutDestination => Some(StringResource("about_screen_title"))
      case CameraDestination => Some(StringResource("camera_title"))
      case FaceDetectionDestination => Some(StringResource("face_detection_title"))
      case BarcodeScanningDestination => Some(StringResource("barcode_scanning_title"))
      case SelfieCheckScreenDestination => Some(StringResource("selfie_check_title"))
      case FaceMatchScreenDestination => Some(StringResource("face_match_title"))
    }
  }

  /** `appDestinations`, in declaration order. */
  const AppDestinations: seq<Destination> := [
    StartDestination,
    AboutDestination,
    CameraDestination,
    FaceDetectionDestination,
    FaceMatchScreenDestination,
    SelfieCheckScreenDestination,
    BarcodeScanningDestination
  ]

  /** The table has seven entries, starts with the start screen and lists each destination once. */
  lemma AppDestinationsShape()
    ensures |AppDestinations| == 7 && AppDestinations[0] == StartDestination
    ensures forall d: Destination :: d in AppDestinations
    ensures forall i, j :: 0 <= i < j < |AppDestinations| ==> AppDestinations[i] != AppDestinations[j]
  {
    forall d: Destination ensures d in AppDestinations {
      match d
      case StartDestination => assert AppDestinations[0] == d;
      case AboutDestination => assert AppDestinations[1] == d;
      case CameraDestination => assert AppDestinations[2] == d;
      case FaceDetectionDestination => assert AppDestinations[3] == d;
      case FaceMatchScreenDestination => assert AppDestinations[4] == d;
      case SelfieCheckScreenDestination => assert AppDestinations[5] == d;
      case BarcodeScanningDestination => assert AppDestinations[6] == d;
    }
  }

  /** No two destinations share a route, so a lookup by route is unambiguous. */
  lemma RoutesDistinct(d: Destination, e: Destination)
    ensures d.Route() == e.Route() <==> d == e
  {
  }

  /** The start screen is the only destination without a title. */
  lemma OnlyStartIsUntitled(d: Destination)
    ensures d.Title().None? <==> d == StartDestination
  {
  }

  /** No route contains the argument separator `'/'`. */
  lemma NoRouteHasSlash(d: Destination)
    ensures '/' !in d.Route()
  {
  }
}
