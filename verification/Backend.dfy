/** Storage backends of a BucketClass (internal/backend/kind.go). */
module Backend {
  import opened Text

  datatype Kind = MinIO | AWS

  // None for a backend name that no provider exists for.
  function KindOf(backend: string): Option<Kind> {
    var b := ToLower(TrimSpace(backend));
    if b == "" || b == "minio" then Some(MinIO)
    else if b == "aws" then Some(AWS)
    else None
  }
}
