/** The member names the FFU validators read, numbered by kind; every other
    number stands for some other name. */
module FfuKeys {
  import opened PythonJson

  // Digests and identities.
  const PLAN_SHA256: Key := 0
  const AUTHENTICATED_INTEGRITY_PLAN_SHA256: Key := 1
  const AUTHENTICATED_INTEGRITY_SHA256: Key := 2
  const DESCRIPTOR_PLAN_SHA256: Key := 3
  const CATALOG_SHA256: Key := 4
  const HASH_TABLE_SHA256: Key := 5
  const RESTORE_TARGET_PLAN_SHA256: Key := 6
  const FULL_FLASH_VALIDATION_PLAN_SHA256: Key := 7
  const FULL_FLASH_TARGET_PREFLIGHT_SHA256: Key := 8
  const SOURCE_LEASE_EVIDENCE_SHA256: Key := 9
  const TARGET_SESSION_EVIDENCE_SHA256: Key := 10
  const CONFIRMATION_EVIDENCE_SHA256: Key := 11
  const MUTATION_AUTHORIZATION_SHA256: Key := 12
  const CONFIRMATION_PHRASE_SHA256: Key := 13
  const WRITE_ORDER_PLAN_SHA256: Key := 14
  const RESULT_SHA256: Key := 15
  const TRUST_ACTIVATION_SHA256: Key := 16
  const TRUST_BUNDLE_SHA256: Key := 17
  const REVIEW_BINDING_SHA256: Key := 18
  const EXPECTED_TARGET_IDENTITY: Key := 19
  const REDISCOVERED_TARGET_IDENTITY: Key := 20

  // Flags.
  const DESTRUCTIVE: Key := 21
  const SOURCE_INTEGRITY_AUTHENTICATED: Key := 22
  const TARGET_IDENTITY_BOUND: Key := 23
  const TARGET_GEOMETRY_BOUND: Key := 24
  const DESTINATION_MAP_RESOLVED: Key := 25
  const CONFIRMATION_REQUIRED: Key := 26
  const FULL_FLASH_UPDATE_CONFIRMED: Key := 27
  const VALIDATION_DESCRIPTORS_ABSENT: Key := 28
  const TARGET_DISCOVERY_COMPLETED: Key := 29
  const WHOLE_DISK_CONFIRMED: Key := 30
  const NORMAL_REMOVABLE_TARGET_CONFIRMED: Key := 31
  const RUNNING_SYSTEM_DISK_EXCLUDED: Key := 32
  const PROTECTED_MOUNTS_EXCLUDED: Key := 33
  const TARGET_IDENTITY_REVALIDATED: Key := 34
  const TARGET_CAPACITY_REVALIDATED: Key := 35
  const TARGET_GEOMETRY_REVALIDATED: Key := 36
  const PRIVILEGED_OPEN_REQUIRED: Key := 37
  const KERNEL_READ_LEASE_REQUIRED: Key := 38
  const KERNEL_READ_LEASE_HELD: Key := 39
  const SOURCE_IDENTITY_REVALIDATED: Key := 40
  const FULL_FLASH_VALIDATION_REPRODUCED: Key := 41
  const TARGET_PREFLIGHT_BOUND: Key := 42
  const SOURCE_LEASE_HELD: Key := 43
  const TARGET_OPENED_READ_WRITE: Key := 44
  const KERNEL_EXCLUSIVE_OPEN: Key := 45
  const NO_FOLLOW_OPEN: Key := 46
  const MOUNTED_TARGETS_ABSENT: Key := 47
  const TARGET_DESCRIPTOR_VERIFIED: Key := 48
  const TARGET_POLICY_REVALIDATED: Key := 49
  const SOURCE_OUTSIDE_TARGET_CONFIRMED: Key := 50
  const TARGET_ACCESS_ACQUIRED: Key := 51
  const CONFIRMATION_EXACT_MATCH: Key := 52
  const CONFIRMATION_CONSUMED: Key := 53
  const TARGET_SESSION_HELD: Key := 54
  const CONFIRMATION_SATISFIED: Key := 55
  const SINGLE_PHASE_WRITE_ORDER_RESOLVED: Key := 56
  const ONE_SHOT_EXECUTION_REQUIRED: Key := 57
  const SOURCE_LEASE_REVALIDATED: Key := 58
  const TARGET_SESSION_REVALIDATED: Key := 59
  const DESTINATION_OVERLAP: Key := 60
  const VALIDATION_CHECKS_REQUIRED: Key := 61
  const EXECUTION_SUPPORTED: Key := 62
  const FIXED_DISK_OVERRIDE_ALLOWED: Key := 63
  const UNMOUNT_REQUIRED: Key := 64
  const FALLBACK_ALLOWED: Key := 65
  const TARGET_ACCESS_PERMITTED: Key := 66
  const GUARDED_UNMOUNT_PERFORMED: Key := 67
  const STAGED_GPT_PROFILE_ALLOWED: Key := 68
  const CANCELLATION_OBSERVED: Key := 69
  const CANCELLED_BEFORE_MUTATION: Key := 70
  const CANCELLED_AFTER_MUTATION: Key := 71
  const VALIDATION_CHECKS_RESOLVED: Key := 72
  const MUTATION_PERMITTED: Key := 73
  const AUTHORIZATION_CONSUMED: Key := 74
  const MUTATION_STARTED: Key := 75
  const WRITE_COMPLETED: Key := 76
  const SYNC_COMPLETED: Key := 77
  const READBACK_COMPLETED: Key := 78
  const EXECUTION_SUCCEEDED: Key := 79
  const TARGET_MAY_BE_PARTIALLY_MODIFIED: Key := 80
  const ERROR_OBSERVED: Key := 81

  // Numbers.
  const SCHEMA: Key := 82
  const LOGICAL_SECTOR_SIZE_BYTES: Key := 83
  const PHYSICAL_SECTOR_SIZE_BYTES: Key := 84
  const OPERATION_COUNT: Key := 85
  const OPERATION_COUNT_PLANNED: Key := 86
  const TRUST_SEQUENCE: Key := 87
  const DEVICE: Key := 88
  const INODE: Key := 89
  const MODIFIED_NS: Key := 90
  const CHANGED_NS: Key := 91
  const KERNEL_DEVICE_ID: Key := 92
  const EXPECTED_KERNEL_DEVICE_ID: Key := 93
  const OBSERVED_KERNEL_DEVICE_ID: Key := 94
  const TARGET_SIZE_BYTES: Key := 95
  const MUTATION_BYTES: Key := 96
  const MUTATION_BYTES_PLANNED: Key := 97
  const SOURCE_FILE_SIZE: Key := 98
  const SIZE: Key := 99
  const VALIDATION_DESCRIPTOR_COUNT: Key := 100
  const STORE_UPDATE_TYPE: Key := 101
  const OPERATION_COUNT_COMPLETED: Key := 102
  const MUTATION_BYTES_WRITTEN: Key := 103

  // Texts, and the list of mounts.
  const CONFIRMATION_PHRASE: Key := 104
  const EXACT_CONFIRMATION_PHRASE: Key := 105
  const EXPECTED_CONFIRMATION_PHRASE: Key := 106
  const DEVICE_PATH: Key := 107
  const TARGET_DEVICE_PATH: Key := 108
  const MODE: Key := 109
  const EVALUATION_TIME: Key := 110
  const MOUNTED_TARGETS: Key := 111
  const STATUS: Key := 112
  const ERROR_STAGE: Key := 113
  const MAJOR_MINOR: Key := 114
  const MOUNTPOINT: Key := 115
  const SOURCE_PATH: Key := 116
  const TRUST_GENERATION: Key := 117
  const TRUST_STORE_ROOT: Key := 118
  const TRUST_METADATA_POLICY_PATH: Key := 119
  const PUBLISHER_POLICY_PATH: Key := 120

  // What a review changes or nests, and the records of a response.
  const EXECUTION_ATTEMPTED: Key := 121
  const SOURCE_IDENTITY: Key := 122
  const TRUST_METADATA_POLICY_IDENTITY: Key := 123
  const PUBLISHER_POLICY_IDENTITY: Key := 124
  const TARGET_PLAN: Key := 125
  const FULL_FLASH_PLAN: Key := 126
  const TARGET_PREFLIGHT: Key := 127
  const REVIEW: Key := 128
  const SOURCE_LEASE: Key := 129
  const TARGET_SESSION: Key := 130
  const CONFIRMATION: Key := 131
  const MUTATION_AUTHORIZATION: Key := 132
  const EXECUTION: Key := 133
}
