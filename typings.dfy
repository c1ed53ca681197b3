/**
 * The shapes the receiver client works with: the closed set of input names
 * and the status document the receiver returns from its status endpoint.
 */
module Typings {

  /** The input sources a caller may select by name. */
  datatype Input =
    | Dvd            // 'dvd'
    | Bd             // 'bd'
    | TvSat          // 'tv/sat'
    | DvdBdr         // 'dvd/bdr'
    | Video1         // 'video-1'
    | Video2         // 'video-2'
    | Hdmi1          // 'hdmi-1'
    | Hdmi2          // 'hdmi-2'
    | Hdmi3          // 'hdmi-3'
    | Hdmi4          // 'hdmi-4'
    | Hdmi5          // 'hdmi-5'
    | IpodUsb        // 'ipod-usb'
    | XmRadio        // 'xm-radio'
    | Cd             // 'cd'
    | CdTape         // 'cd-tape'
    | Tuner          // 'tuner'
    | Phono          // 'phono'
    | MultiChannelIn // 'multi-channel-in'
    | AdapterPort    // 'adapter-port'
    | Sirius         // 'sirius'

  /**
   * One zone of the receiver as the status document reports it. Only V, the
   * raw device volume (0 to 185), is ever interpreted; P, M, I and C are
   * carried along as they arrive.
   */
  datatype Zone = Zone(P: int, V: int, M: int, I: seq<int>, C: int)

  /**
   * The status document. Z lists the zones, the main zone first; the other
   * fields are never interpreted. The untyped DM array is not part of this model.
   */
  datatype PioneerStatus = PioneerStatus(
    S: int, B: int, Z: seq<Zone>, L: int, A: int, IL: seq<string>, LC: string,
    MA: int, MS: string, MC: int, HP: int, HM: int, H: int)
}
