/** Values the audio code receives from the browser. */
module Media {

  /** One element of a `Uint8Array`: an analyser bin or a byte of an encoded blob. */
  type Byte = b: int | 0 <= b < 256

  /**
   * An opaque browser object: a `MediaRecorder`, an `AudioContext` or a `MediaStream`.
   * The model never looks inside one; it only tracks which one a reference holds.
   */
  datatype Handle = Handle(id: nat)
}
