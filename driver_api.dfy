/**
 * The types the FTP server's Driver interface traffics in: the errors a driver
 * reports and the file metadata it hands out (os.FileInfo, reduced to the parts
 * the driver fills in: name, size and the directory flag).
 */
module DriverApi {

  datatype Error =
    | NoSuchKey(key: string)                  // the store has no object under this key
    | InvalidObjectName(key: string)          // the store rejects the empty object name
    | InvalidCopyDest(key: string)            // the store refuses to copy an object onto itself
    | InvalidArgument                         // seek to a negative offset
    | EndOfFile                               // seek past the end of the object
    | Backend                                 // any other failure inside the store (network, permissions)
    | NotADirectory                           // errors.New("Not a directory")
    | NotImplemented                          // ErrNotImplemented
    | OffsetMismatch(offset: int, size: nat)  // resume offset differs from the object's size

  datatype FileInfo = FileInfo(name: string, size: nat, isDir: bool)
}
