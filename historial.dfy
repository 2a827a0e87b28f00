/**
 * Deleted-task history: the `HistorialTarea` snapshot record and the
 * `HistorialTareaServicio` operations over an in-memory history store.
 */
module Historial {
  import opened Wrappers
  import opened Tareas

  /** A clock reading; the snapshot's deletion timestamp. */
  type Instante = int

  /** The action label `registrarEliminacion` records. */
  const ELIMINACION: string := "ELIMINACIÓN"

  /**
   * A history record. `idHistorial` is the store's key, null until the store
   * assigns it; `idTareaOriginal` is the deleted task's identifier.
   */
  datatype HistorialTarea = HistorialTarea(
    idHistorial: Option<int>,
    idTareaOriginal: Option<int>,
    nombre: Option<string>,
    responsable: Option<string>,
    descripcion: Option<string>,
    fechaInicio: Option<Dia>,
    fechaFin: Option<Dia>,
    estado: Option<string>,
    prioridad: Option<string>,
    fechaEliminacion: Option<Instante>,
    accion: Option<string>)

  /**
   * The `HistorialTarea(tarea, accion)` constructor: a snapshot of every field
   * of the task, stamped with the clock reading `ahora`; no key yet.
   */
  function DesdeTarea(t: Tarea, accion: Option<string>, ahora: Instante): (h: HistorialTarea)
    ensures h.idHistorial.None?
    ensures h.idTareaOriginal == t.id
    ensures h.nombre == t.nombre && h.responsable == t.responsable && h.descripcion == t.descripcion
    ensures h.fechaInicio == t.fechaInicio && h.fechaFin == t.fechaFin
    ensures h.estado == t.estado && h.prioridad == t.prioridad
    ensures h.fechaEliminacion == Some(ahora)
    ensures h.accion == accion
  {
    HistorialTarea(None, t.id, t.nombre, t.responsable, t.descripcion,
                   t.fechaInicio, t.fechaFin, t.estado, t.prioridad, Some(ahora), accion)
  }

  /**
   * The task `recuperarTarea` rebuilds: a fresh task with the seven data
   * fields copied from the record, through the setters; its identifier stays
   * null, so the store will treat it as a new task.
   */
  function TareaDesdeHistorial(h: HistorialTarea): (t: Tarea)
    ensures t.id.None?
    ensures t.nombre == h.nombre && t.descripcion == h.descripcion && t.responsable == h.responsable
    ensures t.estado == h.estado && t.prioridad == h.prioridad
    ensures t.fechaInicio == h.fechaInicio && t.fechaFin == h.fechaFin
  {
    var t := NuevaTarea();
    var t := SetNombreTarea(t, h.nombre);
    var t := SetDescripcionTarea(t, h.descripcion);
    var t := SetResponsableTarea(t, h.responsable);
    var t := SetEstadoTarea(t, h.estado);
    var t := SetPrioridadTarea(t, h.prioridad);
    var t := SetFechaInicioTarea(t, h.fechaInicio);
    SetFechaFinTarea(t, h.fechaFin)
  }

  /**
   * Round trip: recovering any record made from `t`, whatever its key, action
   * and timestamp, gives back `t` with only its identifier cleared.
   */
  lemma RecuperarInstantanea(t: Tarea, accion: Option<string>, ahora: Instante, clave: Option<int>)
    ensures TareaDesdeHistorial(DesdeTarea(t, accion, ahora).(idHistorial := clave)) == SetIdTarea(t, None)
  {
  }

  /**
   * The history service over its store: a map from key to record, and the
   * next key the store will hand out.
   */
  class HistorialTareaServicio {
    var registros: map<int, HistorialTarea>
    var siguienteId: int

    /** Every record is stored under its own key, and every key is below the next one. */
    ghost predicate Valid()
      reads this
    {
      forall k :: k in registros ==> registros[k].idHistorial == Some(k) && k < siguienteId
    }

    constructor ()
      ensures Valid() && registros == map[]
    {
      registros := map[];
      siguienteId := 1;
    }

    /** `listarHistorial`: exactly the records currently stored. */
    method ListarHistorial() returns (historial: set<HistorialTarea>)
      ensures historial == registros.Values
    {
      historial := registros.Values;
    }

    /**
     * The store's `save`: a record whose key is held is replaced; any other
     * record is inserted under a fresh key, which the saved copy carries.
     */
    method Guardar(h: HistorialTarea) returns (guardado: HistorialTarea)
      requires Valid()
      modifies this
      ensures Valid()
      ensures h.idHistorial.Some? && h.idHistorial.value in old(registros) ==>
        guardado == h && registros == old(registros)[h.idHistorial.value := h] && siguienteId == old(siguienteId)
      ensures !(h.idHistorial.Some? && h.idHistorial.value in old(registros)) ==>
        && old(siguienteId) !in old(registros)
        && guardado == h.(idHistorial := Some(old(siguienteId)))
        && registros == old(registros)[old(siguienteId) := guardado]
        && siguienteId == old(siguienteId) + 1
    {
      if h.idHistorial.Some? && h.idHistorial.value in registros {
        guardado := h;
        registros := registros[h.idHistorial.value := h];
      } else {
        guardado := h.(idHistorial := Some(siguienteId));
        registros := registros[siguienteId := guardado];
        siguienteId := siguienteId + 1;
      }
    }

    /**
     * `registrarEliminacion`: stores one new record, a snapshot of `t` with
     * the action "ELIMINACIÓN" taken at `ahora`; every earlier record stays.
     */
    method RegistrarEliminacion(t: Tarea, ahora: Instante)
      requires Valid()
      modifies this
      ensures Valid()
      ensures var k := old(siguienteId);
        && k !in old(registros)
        && registros == old(registros)[k := DesdeTarea(t, Some(ELIMINACION), ahora).(idHistorial := Some(k))]
      ensures |registros| == |old(registros)| + 1
    {
      var historial := DesdeTarea(t, Some(ELIMINACION), ahora);
      var _ := Guardar(historial);
    }

    /**
     * `eliminarDefinitivamente`: deletes the record by its key; a record
     * without a key, or whose key is not stored, deletes nothing.
     */
    method EliminarDefinitivamente(h: HistorialTarea)
      requires Valid()
      modifies this`registros
      ensures Valid()
      ensures registros == if h.idHistorial.Some? then old(registros) - {h.idHistorial.value} else old(registros)
      ensures h !in registros.Values
    {
      if h.idHistorial.Some? {
        registros := registros - {h.idHistorial.value};
      }
      forall k | k in registros
        ensures registros[k] != h
      {
      }
    }

    /**
     * `recuperarTarea`: rebuilds the task from the record and deletes the
     * record; the caller is the one who saves the task.
     */
    method RecuperarTarea(h: HistorialTarea) returns (tarea: Tarea)
      requires Valid()
      modifies this`registros
      ensures Valid()
      ensures tarea == TareaDesdeHistorial(h)
      ensures registros == if h.idHistorial.Some? then old(registros) - {h.idHistorial.value} else old(registros)
      ensures h !in registros.Values
    {
      tarea := TareaDesdeHistorial(h);
      EliminarDefinitivamente(h);
    }
  }
}
