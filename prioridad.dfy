/**
 * The priority recompute rule of `PrioridadActualizadorService`: every task
 * that is not "Completada" and has a due date gets the priority given by the
 * whole days left until that date, and the tasks whose priority changes are
 * written back and counted.
 */
module PrioridadActualizador {
  import opened Wrappers
  import opened Tareas

  /** The inclusive step function: at most 1 day "Alta", 2 to 3 "Media", more "Baja". */
  function PrioridadPorDias(dias: int): (p: string)
    ensures p == ALTA <==> dias <= 1
    ensures p == MEDIA <==> 2 <= dias <= 3
    ensures p == BAJA <==> 3 < dias
  {
    if dias <= 1 then ALTA
    else if dias <= 3 then MEDIA
    else BAJA
  }

  /** The rule looks at a task only if its status is not exactly "Completada" and it has a due date. */
  predicate Aplica(t: Tarea)
  {
    t.estado != Some(COMPLETADA) && t.fechaFin.Some?
  }

  /** Days from `hoy` to the task's due date; negative once it is overdue. */
  function DiasHastaFin(t: Tarea, hoy: Dia): (dias: int)
    requires t.fechaFin.Some?
  {
    t.fechaFin.value - hoy
  }

  /** What one pass of the rule leaves of a single task. */
  function Recalcular(t: Tarea, hoy: Dia): (r: Tarea)
    ensures !Aplica(t) ==> r == t
    ensures Aplica(t) ==> r.prioridad == Some(PrioridadPorDias(DiasHastaFin(t, hoy)))
    ensures SoloCambiaPrioridad(t, r)
  {
    if Aplica(t) then
      var nueva := PrioridadPorDias(DiasHastaFin(t, hoy));
      if Some(nueva) != t.prioridad then SetPrioridadTarea(t, Some(nueva)) else t
    else
      t
  }

  /** The whole task list after one pass of the rule. */
  function RecalcularTodas(xs: seq<Tarea>, hoy: Dia): (ys: seq<Tarea>)
  {
    seq(|xs|, i requires 0 <= i < |xs| => Recalcular(xs[i], hoy))
  }

  /** A task the rule has already processed is left as it is by a second pass. */
  lemma RecalcularEstable(t: Tarea, hoy: Dia)
    ensures Recalcular(Recalcular(t, hoy), hoy) == Recalcular(t, hoy)
  {
  }

  /**
   * Idempotence: a second pass with the same `today` changes no task, so it
   * counts no change.
   */
  lemma {:induction false} RecalcularIdempotente(xs: seq<Tarea>, hoy: Dia)
    ensures RecalcularTodas(RecalcularTodas(xs, hoy), hoy) == RecalcularTodas(xs, hoy)
    ensures DiferenciasPrioridad(RecalcularTodas(xs, hoy), RecalcularTodas(RecalcularTodas(xs, hoy), hoy)) == 0
  {
    var ys := RecalcularTodas(xs, hoy);
    forall i | 0 <= i < |xs|
      ensures RecalcularTodas(ys, hoy)[i] == ys[i]
    {
      RecalcularEstable(xs[i], hoy);
    }
    assert RecalcularTodas(ys, hoy) == ys;
    SinDiferencias(ys);
  }

  /**
   * `actualizarPrioridadesManual`: one pass of the rule over the task list,
   * in place; returns how many tasks had their priority changed (and saved).
   */
  method ActualizarPrioridadesManual(tareas: array<Tarea>, hoy: Dia) returns (actualizadas: nat)
    modifies tareas
    ensures tareas[..] == RecalcularTodas(old(tareas[..]), hoy)
    ensures actualizadas == DiferenciasPrioridad(old(tareas[..]), tareas[..])
  {
    ghost var inicial := tareas[..];
    actualizadas := 0;
    for i := 0 to tareas.Length
      invariant forall k :: 0 <= k < i ==> tareas[k] == Recalcular(inicial[k], hoy)
      invariant forall k :: i <= k < tareas.Length ==> tareas[k] == inicial[k]
      invariant actualizadas == DiferenciasPrioridad(inicial[..i], tareas[..i])
    {
      var tarea := tareas[i];
      if tarea.estado != Some(COMPLETADA) {
        var fechaFin := tarea.fechaFin;
        if fechaFin.Some? {
          var diasHastaFin := fechaFin.value - hoy;
          var prioridadOriginal := tarea.prioridad;
          var nuevaPrioridad := PrioridadPorDias(diasHastaFin);
          if Some(nuevaPrioridad) != prioridadOriginal {
            tareas[i] := SetPrioridadTarea(tarea, Some(nuevaPrioridad));
            actualizadas := actualizadas + 1;
          }
        }
      }
      DiferenciasPaso(inicial, tareas[..], i);
    }
    assert inicial[..tareas.Length] == inicial;
    assert tareas[..tareas.Length] == tareas[..];
  }

  /**
   * `actualizarPrioridades`, the scheduled variant: the same pass with the
   * count dropped, so it leaves the task list exactly as the manual one does.
   */
  method ActualizarPrioridades(tareas: array<Tarea>, hoy: Dia)
    modifies tareas
    ensures tareas[..] == RecalcularTodas(old(tareas[..]), hoy)
  {
    var _ := ActualizarPrioridadesManual(tareas, hoy);
  }
}
