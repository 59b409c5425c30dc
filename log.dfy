/** The importance levels of the wlroots logger. */
module Log {
  /** WLR_SILENT, WLR_ERROR, WLR_INFO and WLR_DEBUG. */
  datatype Importance = Silent | Error | Info | Debug
}
