# Task application business rules, in Dafny

A model of the business-rule core of the `tareas` desktop task manager:

- the **task record** `Tarea`, with its getters and single-field setters (`tarea.dfy`, module `Tareas`);
- the **priority recompute rule** of `PrioridadActualizadorService` (`prioridad.dfy`, module `PrioridadActualizador`). Every task that is not "Completada" and has a due date gets "Alta" when at most 1 day is left, "Media" for 2 to 3 days, and "Baja" beyond that. Changed tasks are written back and counted;
- the **overdue-notification tracker** `NotificacionService` (`notificacion.dfy`, module `Notificacion`). It is a class holding the tracked overdue tasks and an "unseen" flag. It has two scans with different rules, plus lookup, copy-out, acknowledge, removal by id and count;
- the **deletion history** (`historial.dfy`, module `Historial`): the `HistorialTarea` snapshot constructor, and `HistorialTareaServicio` over an in-memory history store. The store is a map from key to record plus the next key to hand out.

Representation choices:

- A Java `null` is `None` of `Option` (`wrappers.dfy`).
- A date is the number of its calendar day, so "whole days until the due date" is a subtraction.
- The reference day `hoy` and the deletion timestamp `ahora` are parameters.
- The task list that a service reads from the task store is an `array<Tarea>`. "Set the priority, then `guardarTarea`" is a write into that array.
- Each scan of the tracker is specified by a pure function over the initial tracked list and the task list: `EscaneoProgramado` and `EscaneoManual`. The class methods are proved to compute exactly that function. The lemmas state what the function guarantees.

Behaviour worth noting:

- The scheduled scan returns nothing.
- The scheduled scan does not re-escalate an overdue task that is already tracked: a tracked task left at "Baja" stays there. The manual scan does raise it.
- The manual scan returns the number of priority changes, not the number of tasks it added. It also only considers overdue tasks that are not yet "Alta", so an untracked overdue task that is already "Alta" is not added by it.
- The tracked list is an ordered list, in append order.
- No scan ever removes an entry.

## Model

| member | source | states |
|---|---|---|
| `Tareas.NuevaTarea` | tareas/src/main/java/poo/tareas/modelo/Tarea.java:21-34 | a no-argument task has every field null, in particular a null id (not persisted) |
| `Tareas.SetIdTarea` | tareas/src/main/java/poo/tareas/modelo/Tarea.java:40-50 | the getter returns the stored id afterwards; restoring the old id gives back the original task, so no other field changed |
| `Tareas.SetNombreTarea` | tareas/src/main/java/poo/tareas/modelo/Tarea.java:108-114 | the name is the stored value; the other seven fields are unchanged |
| `Tareas.SetResponsableTarea` | tareas/src/main/java/poo/tareas/modelo/Tarea.java:116-122 | the responsible is the stored value; the other seven fields are unchanged |
| `Tareas.SetDescripcionTarea` | tareas/src/main/java/poo/tareas/modelo/Tarea.java:124-130 | the description is the stored value; the other seven fields are unchanged |
| `Tareas.SetFechaInicioTarea` | tareas/src/main/java/poo/tareas/modelo/Tarea.java:132-138 | the start date is the stored value; the other seven fields are unchanged |
| `Tareas.SetFechaFinTarea` | tareas/src/main/java/poo/tareas/modelo/Tarea.java:140-146 | only the due date changes, to the stored value |
| `Tareas.SetEstadoTarea` | tareas/src/main/java/poo/tareas/modelo/Tarea.java:148-154 | the status is the stored value; the other seven fields are unchanged |
| `Tareas.SetPrioridadTarea` | tareas/src/main/java/poo/tareas/modelo/Tarea.java:156-162 | the priority is the stored value; the other seven fields are unchanged |
| `PrioridadActualizador.PrioridadPorDias` | tareas/src/main/java/poo/tareas/servicio/PrioridadActualizadorService.java:143-150 | the inclusive step function, each band as an if-and-only-if: "Alta" iff at most 1 day (0 and overdue included), "Media" iff 2 to 3 days, "Baja" iff more than 3 |
| `PrioridadActualizador.Recalcular` | tareas/src/main/java/poo/tareas/servicio/PrioridadActualizadorService.java:126-162 | a task that is "Completada" or has no due date is returned unchanged; any other task ends with the step-function priority of its days left; only the priority field can differ |
| `PrioridadActualizador.RecalcularEstable` | tareas/src/main/java/poo/tareas/servicio/PrioridadActualizadorService.java:153 | applying the rule to a task it already processed changes nothing |
| `PrioridadActualizador.RecalcularIdempotente` | tareas/src/main/java/poo/tareas/servicio/PrioridadActualizadorService.java:153-156 | a second pass with the same day leaves the list as it is and counts 0 priority changes |
| `PrioridadActualizador.ActualizarPrioridadesManual` | tareas/src/main/java/poo/tareas/servicio/PrioridadActualizadorService.java:114-167 | in place: every task becomes the rule applied to its old value, and no other change is made; the result is the number of tasks whose priority differs before and after |
| `PrioridadActualizador.ActualizarPrioridades` | tareas/src/main/java/poo/tareas/servicio/PrioridadActualizadorService.java:41-105 | the scheduled variant leaves exactly the same task list as the manual one |
| `Notificacion.ContieneTarea` | tareas/src/main/java/poo/tareas/servicio/NotificacionService.java:91-98 | true iff some tracked entry carries the id (never for a null id) |
| `Notificacion.SinId` | tareas/src/main/java/poo/tareas/servicio/NotificacionService.java:169-171 | no remaining entry carries the id; an entry is kept iff it was in the list and carries another id |
| `Notificacion.ProgramadoAgrega` | tareas/src/main/java/poo/tareas/servicio/NotificacionService.java:62-76 | the scheduled scan only appends, and its count is the number appended. Each appended entry is an overdue, non-completed task of the list, raised to "Alta", whose id was not tracked before |
| `Notificacion.ProgramadoCubre` | tareas/src/main/java/poo/tareas/servicio/NotificacionService.java:52-76 | after the scheduled scan every overdue, non-completed task with a due date is tracked |
| `Notificacion.ProgramadoEscala` | tareas/src/main/java/poo/tareas/servicio/NotificacionService.java:62-70 | with the distinct ids the store guarantees, every overdue task whose id was not tracked is raised to "Alta" in the task list, that is, saved at that priority |
| `Notificacion.ProgramadoSeguidaIntacta` | tareas/src/main/java/poo/tareas/servicio/NotificacionService.java:64-70 | a task whose id was already tracked is left unchanged by the scheduled scan, even when it is overdue and below "Alta" |
| `Notificacion.ProgramadoTareasExacto` | tareas/src/main/java/poo/tareas/servicio/NotificacionService.java:52-70 | with the distinct ids the store guarantees, each task after the scheduled scan is given exactly: raised to "Alta" iff it is overdue and its id was not tracked, otherwise unchanged |
| `Notificacion.ProgramadoRegistro` | tareas/src/main/java/poo/tareas/servicio/NotificacionService.java:64 | from a list with no repeated id, the scheduled scan produces none |
| `Notificacion.ProgramadoTareas` | tareas/src/main/java/poo/tareas/servicio/NotificacionService.java:52-70 | the scheduled scan leaves a task unchanged unless it is overdue, and then it may only raise it to "Alta"; completed tasks and tasks without a due date are untouched |
| `Notificacion.ProgramadoSinNovedades` | tareas/src/main/java/poo/tareas/servicio/NotificacionService.java:64 | if every overdue task is already tracked, the scheduled scan changes nothing and counts nothing |
| `Notificacion.ProgramadoIdempotente` | tareas/src/main/java/poo/tareas/servicio/NotificacionService.java:41-86 | re-running the scheduled scan over what it left adds nothing, counts nothing (so cannot raise the flag) and changes no task |
| `Notificacion.ManualAgrega` | tareas/src/main/java/poo/tareas/servicio/NotificacionService.java:123-134 | the manual scan only appends, no more entries than it counts. Each appended entry is an overdue task that was below "Alta", now raised to it, whose id was not tracked |
| `Notificacion.ManualCubre` | tareas/src/main/java/poo/tareas/servicio/NotificacionService.java:123-133 | after the manual scan every overdue, non-completed task that was below "Alta" is tracked |
| `Notificacion.ManualRegistro` | tareas/src/main/java/poo/tareas/servicio/NotificacionService.java:131-133 | from a list with no repeated id, the manual scan produces none |
| `Notificacion.ManualTareas` | tareas/src/main/java/poo/tareas/servicio/NotificacionService.java:115-128 | the manual scan raises to "Alta" exactly the overdue tasks below it and leaves every other task unchanged |
| `Notificacion.ManualCuenta` | tareas/src/main/java/poo/tareas/servicio/NotificacionService.java:123-145 | the manual scan's result is the number of overdue tasks that were below "Alta", which equals the number of tasks whose priority changed |
| `Notificacion.ManualIdempotente` | tareas/src/main/java/poo/tareas/servicio/NotificacionService.java:125-128 | a second manual scan over what the first left changes no task, appends nothing and counts 0 |
| `Notificacion.ManualSinNovedades` | tareas/src/main/java/poo/tareas/servicio/NotificacionService.java:123-128 | if no overdue task is below "Alta", the manual scan changes nothing and counts nothing |
| `Notificacion.SinIdConcatena` | tareas/src/main/java/poo/tareas/servicio/NotificacionService.java:169-171 | removal distributes over concatenation, so the kept entries stay in their original order |
| `Notificacion.SinIdAusente` | tareas/src/main/java/poo/tareas/servicio/NotificacionService.java:169-171 | removing an id no entry carries leaves the list as it was |
| `Notificacion.SinIdRegistro` | tareas/src/main/java/poo/tareas/servicio/NotificacionService.java:169-171 | removal keeps a list free of repeated ids |
| `Notificacion.NotificacionService.constructor` | tareas/src/main/java/poo/tareas/servicio/NotificacionService.java:31-34 | the tracker starts with an empty list and the flag off |
| `Notificacion.NotificacionService.VerificarTareasVencidas` | tareas/src/main/java/poo/tareas/servicio/NotificacionService.java:41-86 | the new list and tasks are those of `EscaneoProgramado`. The flag is set iff something was added and is otherwise left as it was. No id is ever tracked twice |
| `Notificacion.NotificacionService.VerificarTareasVencidasManual` | tareas/src/main/java/poo/tareas/servicio/NotificacionService.java:106-146 | the new list and tasks are those of `EscaneoManual`. The result is its count, and the flag is set iff that count is positive. No id is ever tracked twice |
| `Notificacion.NotificacionService.GetTareasVencidasSinNotificar` | tareas/src/main/java/poo/tareas/servicio/NotificacionService.java:153-155 | returns a copy equal to the tracked list |
| `Notificacion.NotificacionService.MarcarNotificacionesComoVistas` | tareas/src/main/java/poo/tareas/servicio/NotificacionService.java:160-162 | the flag becomes false; the tracked list, and so the count, is unchanged |
| `Notificacion.NotificacionService.EliminarNotificacion` | tareas/src/main/java/poo/tareas/servicio/NotificacionService.java:169-171 | the list becomes `SinId` of the old one; the flag is untouched |
| `Notificacion.NotificacionService.HayNotificacionesNuevas` | tareas/src/main/java/poo/tareas/servicio/NotificacionService.java:178-180 | returns the flag |
| `Notificacion.NotificacionService.GetNumeroNotificaciones` | tareas/src/main/java/poo/tareas/servicio/NotificacionService.java:187-189 | equals the length of the tracked list |
| `Historial.DesdeTarea` | tareas/src/main/java/poo/tareas/modelo/HistorialTarea.java:101-115 | the snapshot's original id is the task's id. The seven data fields are copied, the action is the argument and the timestamp is the clock reading. The record key stays null |
| `Historial.TareaDesdeHistorial` | tareas/src/main/java/poo/tareas/servicio/HistorialTareaServicio.java:68-78 | the rebuilt task has the record's name, description, responsible, status, priority, start and due date, and a null id |
| `Historial.RecuperarInstantanea` | tareas/src/main/java/poo/tareas/servicio/HistorialTareaServicio.java:66-87 | round trip: recovering a record made from task `t` (any key, action, timestamp) gives `t` with its id cleared |
| `Historial.HistorialTareaServicio.ListarHistorial` | tareas/src/main/java/poo/tareas/servicio/HistorialTareaServicio.java:38-41 | exactly the records currently stored |
| `Historial.HistorialTareaServicio.Guardar` | tareas/src/main/java/poo/tareas/servicio/HistorialTareaServicio.java:54 | the store's upsert. A record whose key is stored replaces it; any other record is inserted under a fresh key, which the saved copy carries |
| `Historial.HistorialTareaServicio.RegistrarEliminacion` | tareas/src/main/java/poo/tareas/servicio/HistorialTareaServicio.java:50-55 | exactly one record is added, under a fresh key: a snapshot of the task with action "ELIMINACIÓN". Every earlier record is unchanged |
| `Historial.HistorialTareaServicio.EliminarDefinitivamente` | tareas/src/main/java/poo/tareas/servicio/HistorialTareaServicio.java:96-100 | the record's key is removed and every other record is unchanged; afterwards the record is not in the store |
| `Historial.HistorialTareaServicio.RecuperarTarea` | tareas/src/main/java/poo/tareas/servicio/HistorialTareaServicio.java:66-87 | returns the task rebuilt from the record (null id) and deletes the record, which is then no longer in the store |

## Left out

- Logging, the `@Scheduled` cron triggers, Spring wiring, the JavaFX controllers, the Excel export and the console crew simulator are not modelled.
- The clock is not modelled. `LocalDate.now()` and `new Date()` are the parameters `hoy` and `ahora`. Converting a `Date` to a calendar day in the system time zone is replaced by day numbers.
- Failures of the store's `save` are not modelled. In the source such a failure is an exception that aborts the rest of a scan or recompute; in the model every save succeeds.
- Aliasing is not modelled. In the source the tracked list holds the same task objects the scan escalated; here it holds task values, so a later change to a task is not visible through the tracked list.
- The task store itself (`tareaServicio`, `tareaRepositorio`) is not modelled beyond the task array a scan or recompute reads and writes back.
- Notificacion.NotificacionService.VerificarTareasVencidas: requires every listed task to have an id, as tasks read from the store do. A task without an id would be appended and make the next `contieneTarea` throw a NullPointerException; that path is not modelled. The same holds for `VerificarTareasVencidasManual` and for `ContieneTarea`, which requires its list entries to have ids.
- Historial.HistorialTareaServicio.ListarHistorial: returns the stored records as a set; the order `findAll` lists them in is not modelled.
- Historial.HistorialTareaServicio.Guardar: the store is an abstract map with consecutive keys; database identity generation and the JPA entity lifecycle are not modelled.
- Integers are unbounded. The source's `Integer` ids and `int` counters could overflow only past 2^31 tasks, which the model does not capture.
