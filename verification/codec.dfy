/**
 * The dual-mode decoding of the login fields. The native client sends each
 * field as base64 text wrapping the hex of an AES-256-CBC ciphertext; the
 * browser sends plaintext. Base64 decoding and decryption are left abstract:
 * the login handler only depends on the control flow around them.
 */
module Codec {
  import opened Records

  /**
   * The two primitives the login handler calls: `base64Decode`, which never
   * fails, and `decrypt`, which gives `None` where `decryptData` returns
   * `null` after a cipher error.
   */
  datatype Codec = Codec(base64Decode: string -> string, decrypt: string -> Option<string>)

  /** What the native client's encoding of `field` decrypts to, if anything. */
  function Decrypted(c: Codec, field: string): Option<string> {
    c.decrypt(c.base64Decode(field))
  }

  /**
   * The decode-or-fallback step of the login handler: both fields take their
   * decrypted values when both decrypt to non-empty strings; otherwise both
   * keep the values as submitted.
   */
  function DecodeFields(c: Codec, discordId: string, hwid: string): (r: (string, string))
    // all or nothing: never one field decoded and the other kept
    ensures r == (discordId, hwid) || (Decrypted(c, discordId) == Some(r.0) && Decrypted(c, hwid) == Some(r.1))
    // the encrypted path: a pair that decrypts is replaced by its plaintext
    ensures Truthy(Decrypted(c, discordId)) && Truthy(Decrypted(c, hwid)) ==>
              Decrypted(c, discordId) == Some(r.0) && Decrypted(c, hwid) == Some(r.1)
    // the plaintext path: if either field fails to decrypt, both are used as they came
    ensures !Truthy(Decrypted(c, discordId)) || !Truthy(Decrypted(c, hwid)) ==> r == (discordId, hwid)
    // fields that passed the presence check stay non-empty
    ensures discordId != "" && hwid != "" ==> r.0 != "" && r.1 != ""
  {
    var decryptedDiscordId := Decrypted(c, discordId);
    var decryptedHwid := Decrypted(c, hwid);
    if Truthy(decryptedDiscordId) && Truthy(decryptedHwid) then
      (decryptedDiscordId.value, decryptedHwid.value)
    else
      (discordId, hwid)
  }
}
