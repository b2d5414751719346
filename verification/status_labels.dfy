/** The two closed code-to-label tables (`course_status`, `wc_order_status`).
    A recognised code becomes its label; anything else is returned unchanged. */
module StatusLabels {

  const CourseStatusLabels: map<string, string> := map[
    "completed" := "Completed",
    "in_progress" := "In-progress",
    "not_started" := "Not Started"
  ]

  const OrderStatusLabels: map<string, string> := map[
    "wc-completed" := "Completed",
    "wc-failed" := "Failed",
    "wc-processing" := "Processing",
    "wc-on-hold" := "On Hold",
    "wc-pending" := "Pending",
    "wc-cancelled" := "Cancelled"
  ]

  /** The label of a course-progress status code. No label is itself a code,
      so the result is never one. */
  function CourseStatus(status: string): (r: string)
    ensures status in CourseStatusLabels ==> r == CourseStatusLabels[status]
    ensures status !in CourseStatusLabels ==> r == status
    ensures r !in CourseStatusLabels
  {
    if status == "completed" then "Completed"
    else if status == "in_progress" then "In-progress"
    else if status == "not_started" then "Not Started"
    else status
  }

  /** The label of a shop order status code; the result is never a code. */
  function OrderStatus(status: string): (r: string)
    ensures status in OrderStatusLabels ==> r == OrderStatusLabels[status]
    ensures status !in OrderStatusLabels ==> r == status
    ensures r !in OrderStatusLabels
  {
    if status == "wc-completed" then "Completed"
    else if status == "wc-failed" then "Failed"
    else if status == "wc-processing" then "Processing"
    else if status == "wc-on-hold" then "On Hold"
    else if status == "wc-pending" then "Pending"
    else if status == "wc-cancelled" then "Cancelled"
    else status
  }

  /** Translating twice is the same as translating once: the first
      translation never yields a code. */
  lemma CourseStatusIdempotent(status: string)
    ensures CourseStatus(CourseStatus(status)) == CourseStatus(status)
  {
  }

  lemma OrderStatusIdempotent(status: string)
    ensures OrderStatus(OrderStatus(status)) == OrderStatus(status)
  {
  }
}
