/** `VsphereConstants`: managed object type names, task failure codes and default names. */
module VsphereConstants {
  const DC_MOR_TYPE := "Datacenter"
  const HOST_MOR_TYPE := "HostSystem"
  const CLUSTER_COMPRES_MOR_TYPE := "ClusterComputeResource"
  const DVS_MOR_TYPE := "VmwareDistributedVirtualSwitch"
  const DV_PORT_GROUP_MOR_TYPE := "DistributedVirtualPortgroup"

  const DEFAULT_VDS_VERSION := "6.0.0"

  const ADDHOST_TASK_FAILURE := 1
  const CREATEPORTGROUP_TASK_FAILURE := 2
  const CREATEVDS_TASK_FAILURE := 3
  const DELETEDCOJBECT_TASK_FAILURE := 4
  const SETDRS_TASK_FAILURE := 5
  const MIGRATEVMTOVDS_TASK_FAILURE := 6
  const VDSRECONFIG_TASK_FAILURE := 7
  const CREATEVIRTUALNIC_TASK_FAILURE := 8
  const SELECTSERVICE_TASK_FAILURE := 9
  const CREATEDATACENTER_TASK_FAILURE := 10
  const CREATECLUSTER_TASK_FAILURE := 11
  const UPDATEVSAN_TASK_FAILURE := 12
  const SELECTMANAGEMENTSERVICE_TASK_FAILURE := 13
  const SELECTVMOTIONSERVICE_TASK_FAILURE := 14
  const ENABLEVSAN_TASK_FAILURE := 15
  const SETDAS_TASK_FAILURE := 16

  const DEFAULT_DATACENTER_NAME := "Datacenter1"
  const DEFAULT_CLUSTER_NAME := "Cluster1"
  const DEFAULT_VDS_NAME := "DVSwitch1"
  const DEFAULT_MGMT_PG_NAME := "mgmtPortgroup"
  const DEFAULT_VMOTION_PG_NAME := "vmotionPortgroup"
  const DEFAULT_VSAN_PG_NAME := "vsanPortgroup"
  const DEFAULT_VM_PG_NAME := "vmPortgroup"
}
