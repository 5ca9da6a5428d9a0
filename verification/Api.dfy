/** The values that cross the boundary between the Rust core and the app. Strings are their
    UTF-8 bytes here, integers carry the ranges of their Rust types. */
module Api {
  import opened Protocol

  type Str = Bytes

  newtype u16 = x: int | 0 <= x < 0x1_0000
  newtype u32 = x: int | 0 <= x < 0x1_0000_0000
  newtype i32 = x: int | -0x8000_0000 <= x < 0x8000_0000
  newtype i64 = x: int | -0x8000_0000_0000_0000 <= x < 0x8000_0000_0000_0000

  datatype SendPhase = WaitingApproval | Uploading | Done | Failed | Canceled

  datatype SendEvent = SendEvent(
    phase: SendPhase,
    fileIndex: u32,
    fileCount: u32,
    fileName: Str,
    sentBytes: i64,
    totalBytes: i64,
    message: Option<Str>)

  datatype FileItem = FileItem(id: Str, name: Str, size: i64)

  datatype ApprovalRequest = ApprovalRequest(
    senderAlias: Str,
    senderFingerprint: Str,
    isNewDevice: bool,
    files: seq<FileItem>)

  datatype DeviceSnapshot = DeviceSnapshot(alias: Str, deviceType: Str, fingerprint: Str, ip: Str, port: u16)
}
