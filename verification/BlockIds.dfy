/** Ids of chat blocks. */
module BlockIds {

  const MAX_BLOCK_ID_LENGTH: nat := 36

  predicate IsBlockIdChar(c: char) {
    'A' <= c <= 'Z' || 'a' <= c <= 'z' || '0' <= c <= '9' || c == '.' || c == '_' || c == ':' || c == '-'
  }

  predicate IsBlockId(id: string) {
    0 < |id| <= MAX_BLOCK_ID_LENGTH && forall i :: 0 <= i < |id| ==> IsBlockIdChar(id[i])
  }
}
