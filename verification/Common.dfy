/** Vocabulary shared by every part of the device-authentication model. */
module Common {

  datatype Option<+T> = None | Some(value: T)

  /** AuthLinkType: the transports an authentication can run over, in the source's order. */
  datatype LinkType =
    | Wifi
    | Br
    | Ble
    | P2p
    | EnhancedP2p
    | RawEnhancedP2p
    | NormalizedKey
    | SessionChannel
    | SessionKey
    | Sle
    | Usb

  /** Links on which the client sends its device information first and the server only answers it;
      these links need no close acknowledgement. */
  predicate SyncsByReply(link: LinkType) {
    link == Wifi || link == SessionKey || link == Usb
  }

  /** Links TrySyncDeviceInfo refuses. */
  predicate CannotSyncInfo(link: LinkType) {
    link == RawEnhancedP2p || link == NormalizedKey
  }

  const SOFTBUS_OK := 0
  /** SOFTBUS_ERRNO(AUTH_SUB_MODULE_CODE): the error numbers below count up from here. */
  const AUTH_ERR_BASE := -425983999
  const AUTH_CONN_FAIL := AUTH_ERR_BASE + 2
  const AUTH_DEVICE_DISCONNECTED := AUTH_ERR_BASE + 10
  const AUTH_SYNC_DEVID_FAIL := AUTH_ERR_BASE + 11
  const AUTH_HICHAIN_NOT_TRUSTED := AUTH_ERR_BASE + 15
  const AUTH_SYNC_DEVINFO_FAIL := AUTH_ERR_BASE + 16
  const AUTH_UNPACK_DEVINFO_FAIL := AUTH_ERR_BASE + 17
  const AUTH_SEND_FAIL := AUTH_ERR_BASE + 18
  const AUTH_TIMEOUT := AUTH_ERR_BASE + 19
  const AUTH_NOT_SUPPORT_THREE_STATE := AUTH_ERR_BASE + 26
  const AUTH_SYNC_DEVICEID_TIMEOUT := AUTH_ERR_BASE + 41
  const AUTH_HICHAIN_TIMEOUT := AUTH_ERR_BASE + 42
  const AUTH_SAVE_SESSIONKEY_TIMEOUT := AUTH_ERR_BASE + 43
  const AUTH_SYNC_DEVICEINFO_TIMEOUT := AUTH_ERR_BASE + 44
  /** HICHAIN_RETURN_NOT_TRUSTED. */
  const HICHAIN_RETURN_NOT_TRUSTED := -425919748
  /** Bytes in a session key. */
  const SESSION_KEY_LENGTH := 32
}
