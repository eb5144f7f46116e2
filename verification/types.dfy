/** The task record shared by the dashboard, the task hook and the task card. */
module Types {
  import opened Wrappers

  /** A task as the backend returns it. `completedAt` stands for
      `completed_at?: string | null`, with `undefined` and `null` both `None`. */
  datatype Task = Task(
    id: nat,
    title: string,
    description: Option<string>,
    completed: bool,
    userId: string,
    createdAt: string,
    updatedAt: string,
    completedAt: Option<string>
  )
}
