/**
  The status messages the worker passes to `status_callback`
  (processor.py:61-112): two protocol shapes, `PROGRESS|n` and
  `TIME_INFO|current|total`, and free-text log lines.  Long texts are written
  as concatenations of short pieces; the pieces joined are the source's texts.
*/
module Messages {
  import opened Text

  const ProgressTag: string := "PROGRESS|"
  const TimeInfoTag: string := "TIME_INFO|"

  function ProgressMessage(percent: int): (m: string)
    ensures StartsWith(m, ProgressTag)
  {
    var m := ProgressTag + IntToString(percent);
    assert m[..|ProgressTag|] == ProgressTag;
    m
  }

  function TimeInfoMessage(current: string, total: string): (m: string)
    ensures StartsWith(m, TimeInfoTag)
  {
    var m := TimeInfoTag + (current + "|" + total);
    assert m[..|TimeInfoTag|] == TimeInfoTag;
    assert m == TimeInfoTag + current + "|" + total;
    m
  }

  const Probing: string := "1/4: " + "Đang lấy thông tin " + "video..."
  const Building: string := "2/4: " + "Đang xây dựng lệnh " + "FFmpeg..."
  const Starting: string := "3/4: " + "Bắt đầu xử lý..."
  const Cancelling: string := "Đang hủy bỏ..."

  /** The head shared by the three messages that end a cancelled run. */
  const CancelledHead: string := "Đã hủy"
  const CancelledRemoved: string := CancelledHead + " bỏ và xóa " + "file output."
  const CancelledByUser: string := CancelledHead + " bỏ bởi " + "người dùng."

  /** Cancelled, but deleting the partial output raised an OSError with text `reason`. */
  function CancelledNotRemoved(reason: string): string
  {
    CancelledHead + ", nhưng không " + "thể xóa file: " + reason
  }

  const CompletedHead: string := "4/4: "

  function Completed(outputPath: string): string
  {
    CompletedHead + "Hoàn thành!" + " Video đã được " + "lưu tại " + outputPath
  }

  const FailureHead: string := "Lỗi: "

  /** `f"Lỗi: {e}"`: how every exception caught by the worker is reported. */
  function Failure(reason: string): string
  {
    FailureHead + reason
  }

  /** The texts of the exceptions the worker raises itself. */
  function NotFound(exe: string): string
  {
    "Không tìm thấy " + exe + "."
  }

  const DurationUnknown: string := "Không thể xác định " + "thời lượng video."

  function ExitStatus(code: int): string
  {
    "FFmpeg thoát với " + "mã lỗi " + IntToString(code) + "."
  }

  /** `str(KeyError(key))`. */
  function MissingKey(key: string): string
  {
    "'" + key + "'"
  }

  /**
    The messages that end a run: an error, completion, or one of the three
    outcomes of a cancellation.
  */
  predicate IsTerminal(m: string)
  {
    StartsWith(m, FailureHead) || StartsWith(m, CompletedHead) || StartsWith(m, CancelledHead)
  }
}
